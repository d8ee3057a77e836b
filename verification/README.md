# Verification of the song-comparison service

A Dafny model of the service's stateful and numeric core, with proofs over every input, every
run and every interleaving. The modules follow the program's components.

| file | module | component |
|---|---|---|
| `flight.dfy`, `flight_group.dfy` | `FlightProtocol`, `FlightGroups` | concurrent lookups of one key sharing a run |
| `searcher.dfy` | `TrackCache` | the read-through track cache over an unreliable store |
| `cache_core.dfy`, `cache_key.dfy` | `CacheCore`, `CacheKey` | the bypass window, the cache key |
| `limiter.dfy` | `RateLimiting` | the one-token rate limiter, Retry-After, the retry |
| `musicbrainz.dfy`, `track_search.dfy` | `MusicBrainz`, `TrackSearch` | from search results to a track |
| `resolver.dfy` | `TagNormalizer`, `Resolving` | normalized tags, recording or artist tags, the weighted profile |
| `weighted.dfy` | `Similarity` | the comparison of two profiles |
| `rerank.dfy`, `similar.dfy` | `Vectors`, `Rerank`, `Similar` | reranking by listeners, the widening search and its fallbacks |
| `publisher.dfy` | `Publishing` | the bounded event publisher |
| `token_bucket.dfy` | `TokenBuckets` | the per-host token bucket |
| `listening.dfy` | `Listening` | the player's listening session |
| `collections.dfy` | `Collections` | folds, sorts, counts and sums shared by the others |

Three shapes recur. Code that several goroutines run at once is a transition system: every
atomic operation, critical section and choice of a `select` is one step, a run is any
sequence of enabled steps, and an invariant that every step keeps gives the theorems about
all runs. The objects that take those steps (`FlightGroup`, `Searcher`, `RateLimiter`, `Redpanda`) are
classes whose methods are proved to take exactly the step of the system. Code that loops is a
method proved against a function of its inputs, and the theorems are lemmas about that
function. Maps are ranged over in an arbitrary order, sorts are compared with any other
sorted permutation, and floating-point numbers are exact reals.

What is assumed of the surroundings is a parameter: the upstream is a function of the words
of a query that may also fail; the store may miss, drop, fail or spoil what it holds; each
delivery callback runs once; the vector store answers with prefixes of one ranking; clocks do
not run backwards, except the player's, which is arbitrary.

## Model

| member | source | states |
|---|---|---|
| FlightProtocol.OneLiveRunPerKey | internal/cache/flight.go:46-120 | In every interleaving, two runs of one key that are neither cancelled nor returned are the same run, and it is the registered one |
| FlightProtocol.RegisteredFlights | internal/cache/flight.go:51-67 | A registered flight is not cancelled, not done, and has at least one waiter, as many as callers joined it minus callers that left it |
| FlightProtocol.LateStepsSpareTheSuccessor | internal/cache/flight.go:84-96 | Whatever an abandoned or finished run or its callers still do, however late, no registration changes |
| FlightProtocol.CancelledOnlyWhenAbandoned | internal/cache/flight.go:84-96 | A run cancelled while fn is being called has been left by every caller that joined it |
| FlightProtocol.NoWaiterIsStranded | internal/cache/flight.go:69-78 | A waiting caller's run is live and registered while fn runs; once fn has returned, the run's own remaining steps lead to the caller being answered with fn's reply |
| FlightProtocol.ReturnedRunAnswers | internal/cache/flight.go:98-120 | From every point after fn's return, the rest of the deferred function can be taken and ends with done closed and the reply delivered |
| FlightProtocol.OneReplyPerRun | internal/cache/flight.go:31-35 | Any two answers of one run, at whatever times, are the one value or error written before done was closed |
| FlightProtocol.LeadersStartRuns | internal/cache/flight.go:56-66 | Leaders are as many as runs started; leaders and coalesced together are the callers attached |
| FlightProtocol.AnswersFitTheirKeys | internal/cache/flight.go:46-78 | Any property that ties fn's replies to the keys they were called for holds of every answer and the caller's own key |
| FlightProtocol.StepKeepsInv | internal/cache/flight.go:46-120 | Every atomic step keeps the protocol's invariant: registration, liveness, waiter counts, replies |
| FlightGroups.FlightGroup.Join | internal/cache/flight.go:51-67 | The locked section of do takes exactly the join step: it starts a registered run for a free key or adds a waiter to the registered one |
| FlightGroups.FlightGroup.Leave | internal/cache/flight.go:84-96 | leave takes exactly the leave step: one waiter fewer, and for the last one the key freed if still this flight's, and the run cancelled |
| FlightGroups.FlightGroup.Return | internal/cache/flight.go:98-119 | The one write of value and err, also after a panic |
| FlightGroups.FlightGroup.Free | internal/cache/flight.go:109-113 | The deferred function frees the key only if this flight still holds it |
| FlightGroups.FlightGroup.Unregister | internal/cache/flight.go:92-94 | Deletes a key's registration exactly when it is this flight's |
| FlightGroups.FlightGroup.PickDone | internal/cache/flight.go:69-74 | A caller that sees done closed returns the run's own reply |
| TrackCache.LookupsAreTransparent | internal/cache/searcher.go:60-98 | Over every run, an answered track is the upstream's apart from the cached mark, "not found" is answered only for what the upstream does not know, and other failures are the upstream's or the run's, never the store's and never from a hit |
| TrackCache.SameWordsSameTrack | internal/cache/searcher.go:60-98 | Two lookups with the same words, at whatever times and by whatever ways, get the same track |
| TrackCache.StoreHoldsOnlyTruth | internal/cache/searcher.go:86-95 | Only tracks and "not found" are stored, each the upstream's answer to every query with that key, each for a positive time |
| TrackCache.SavedAnswerIsServed | internal/cache/searcher.go:66-95 | What a flight saves for a positive time is a hit for a lookup of the same key that reads the store next, with the track marked or "not found" |
| TrackCache.LookupsAreCountedOnce | internal/cache/core.go:176-186 | Every lookup past the cache read is counted once, as a hit, a miss that started a run, or coalesced |
| TrackCache.RoundTrip | internal/cache/searcher.go:120-151 | Storing and reading back a track keeps it, apart from the cached mark, exactly if its names are those of its recording tags and it has no artist tags or tag source |
| TrackCache.StepKeepsInv | internal/cache/searcher.go:63-107 | Every step of lookups, runs and store keeps the cache's invariant |
| TrackCache.KeysFollowWords | internal/cache/searcher.go:109-118 | Queries with one cache key have the same words |
| TrackCache.Searcher.ReadCache | internal/cache/searcher.go:66-77 | Takes exactly the read step of its lookup: a hit answers what the entry says and is counted; a miss, a bypass, a store error and undecodable bytes send the lookup on |
| TrackCache.Searcher.SaveReply | internal/cache/searcher.go:85-107 | Takes exactly the save step at the end of the flight's function |
| TrackCache.Searcher.Keep | internal/cache/searcher.go:85-107 | Outside the window and with a working store, a track is stored for its own time, or the low-data time below three tags, "not found" for the negative time, each if positive; otherwise, and for other failures, the store is unchanged |
| TrackCache.ToEntryTags | internal/cache/searcher.go:133-139 | Converts every tag in order |
| TrackCache.FromEntryTags | internal/cache/searcher.go:141-150 | Converts every stored tag in order |
| TrackCache.ReadEntry | internal/cache/searcher.go:124-131 | The track of an entry lists the names of its recording tags and is marked cached |
| CacheKey.KeysAgreeOnWords | internal/cache/searcher.go:109-118 | Two lookups share a key exactly if their lower-cased artists have the same words and so do their titles |
| CacheKey.SameKeyPart | internal/cache/searcher.go:116-118 | Two texts have the same key part exactly if their lower-cased words are the same |
| CacheKey.FieldsOfJoin | internal/cache/searcher.go:117-117 | Splitting at white space undoes joining words with single spaces |
| CacheKey.FieldsOfPadded | internal/cache/searcher.go:117-117 | White space before, between and behind words is lost, whatever and however much it is, and nothing else |
| CacheKey.SomeSpaces | internal/cache/searcher.go:117-117 | Tabs, line ends, plain, no-break and ideographic spaces are white space, printing ASCII characters are not |
| CacheKey.EscapedBytes | internal/cache/searcher.go:117-117 | Letters, digits and four marks stand for themselves (section 2.3 of RFC 3986), a space becomes "+", other bytes a percent sign with two upper-case digits |
| CacheKey.UnescapeUndoesEscape | internal/cache/searcher.go:117-117 | Percent-encoding with "+" for space (section 2.1 of RFC 3986) can be undone, so it loses nothing |
| CacheKey.EscapeHasNoBar | internal/cache/searcher.go:113-113 | The escaped form never contains the separator of the two key parts |
| CacheKey.EncodeInjective | internal/cache/searcher.go:117-117 | Texts with the same UTF-8 bytes are the same |
| CacheCore.OutageLogIsBalanced | internal/cache/core.go:156-174 | Under every interleaving of the atomic swaps, outage warnings minus recoveries is 1 while the window value is non-zero and 0 otherwise |
| CacheCore.ErrorsInAnySpan | internal/cache/core.go:120-169 | For operations run one after another, n recorded store errors within a span L satisfy (n-1)*Cooldown <= L |
| CacheCore.WindowCoversLast | internal/cache/core.go:151-174 | Between operations run one after another the window covers the cooldown of the last error, or that cooldown is over |
| CacheCore.StoreIsAskedAgain | internal/cache/core.go:120-154 | In a run of operations one after another, one that starts at or after the last recorded error plus the cooldown reaches the store: an answer closes the window, an error is recorded |
| CacheCore.RecordedErrors | internal/cache/core.go:138-168 | An error is recorded exactly for an operation outside the window that has something to do, fails, and whose caller is still there |
| CacheCore.Core.Get | internal/cache/core.go:122-136 | Until the window is over the store is left alone and nothing changes; from then on an answer is returned and closes the window, and an error is a miss that opens it anew unless the caller's context has ended |
| CacheCore.Core.Set | internal/cache/core.go:138-149 | Stores exactly if the time to live is positive, the window is over and the store does not fail; a failure opens the window unless the caller's context has ended |
| CacheCore.Core.Fail | internal/cache/core.go:159-168 | Opens the window and warns only if it was closed; does nothing once the caller's context has ended |
| CacheCore.Core.Recovered | internal/cache/core.go:170-174 | Closes the window and logs the recovery only if it was open |
| RateLimiting.OneTokenAndNoBlocking | internal/provider/musicbrainz.go:599-643 | In every run exactly one turn token exists, in the slot or with one caller, and whoever puts it back finds the slot empty |
| RateLimiting.StoredTimesNeverDecrease | internal/provider/musicbrainz.go:618-643 | The not-before times put into the slot never decrease, also through cancelled waits |
| RateLimiting.StartsInAnyWindow | internal/provider/musicbrainz.go:599-643 | Any n request starts of any run within a window of length L satisfy (n-1)*interval <= L |
| RateLimiting.PauseIsHonouredByEveryone | internal/provider/musicbrainz.go:331-336 | After a refused response no caller starts before its end plus the Retry-After of section 10.2.3 of RFC 9110, in seconds or as a date, or plus the cap; after any response none before the interval is over |
| RateLimiting.PauseIsWhatWasAsked | internal/provider/musicbrainz.go:345-362 | The turn is put back with exactly the longer of the interval and the capped wait the header asks for, counted from the release; a missing, negative or past header asks for none |
| RateLimiting.StepKeepsInv | internal/provider/musicbrainz.go:297-343 | Every step of acquire, attempt and release keeps the token and all pauses demanded so far |
| RateLimiting.RateLimiter.Take | internal/provider/musicbrainz.go:618-628 | acquire takes the stored time and the turn, and waits exactly if that time is in the future |
| RateLimiting.RateLimiter.PutBack | internal/provider/musicbrainz.go:629-636 | A wait that is cancelled puts the turn and its pause back into an empty slot |
| RateLimiting.RateLimiter.Release | internal/provider/musicbrainz.go:639-643 | release puts the turn back into an empty slot, to start no sooner than the longer of interval and backoff |
| RateLimiting.GetJson | internal/provider/musicbrainz.go:272-292 | At most two attempts; a second one exactly after a 503 or a network error with the caller still there; the last one counts |
| RateLimiting.TwoTimeoutsTake | internal/provider/musicbrainz.go:272-281 | On an idle client there is a run in which two attempts without a response end after exactly two timeouts and one interval |
| TrackSearch.AnswerIgnoresServerOrder | internal/provider/musicbrainz.go:192-223 | Whatever order distinct recordings are listed in, and the tags and genres inside each, the lookup has the same outcome and the same track |
| TrackSearch.BestMatchNamesTheTrack | internal/provider/musicbrainz.go:192-223 | The track is named by the tagged match with most votes and then smallest id, else by the plain match with the smallest id and without tags, and is not found only if nothing matches |
| TrackSearch.BestAreTheTopFive | internal/provider/musicbrainz.go:408-431 | The merged recordings carry tags and come before every tagged one left out, by votes and then id; one is left out only if five are merged |
| TrackSearch.ShownCounts | internal/provider/musicbrainz.go:442-459 | A name is shown exactly if a tag or genre of a merged recording folds to it, and its count is the sum over the merged recordings of the highest count each gives it |
| TrackSearch.MatchesAreAccepted | internal/provider/musicbrainz.go:371-386 | The matches are exactly the recordings that score at least 90 and whose credit names the artist |
| TrackSearch.VotesAreCounts | internal/provider/musicbrainz.go:433-440 | A recording's votes are its merged counts added up |
| TrackSearch.VotesAreConserved | internal/provider/musicbrainz.go:433-459 | The votes of the summed tags are the votes of the recordings they came from |
| TrackSearch.AnswersAreFromClient | internal/provider/musicbrainz.go:192-223 | Every track found lists the names of its recording tags, distinct, and carries no artist tags, source or cached mark |
| TrackSearch.ArtistTagsIgnoreOrder | internal/provider/musicbrainz.go:245-245 | The tags of an artist do not depend on the order of tags and genres, nor on which list names one |
| TrackSearch.SummaryIgnoresTagOrder | internal/provider/musicbrainz.go:433-471 | A recording's votes and sorted tags do not depend on the order of its tags and genres |
| TrackSearch.SearchTrack | internal/provider/musicbrainz.go:192-223 | The tagged search decides if it matches; otherwise the plain search gives the match with the smallest id, or "not found", or the first failure |
| TrackSearch.MatchingRecordings | internal/provider/musicbrainz.go:373-386 | Keeps, in order, exactly the recordings with a high enough score whose credit names the artist |
| TrackSearch.CreditedArtist | internal/provider/musicbrainz.go:388-410 | The first credit entry that names the artist, else the whole credit of a collaboration |
| TrackSearch.SumTags | internal/provider/musicbrainz.go:442-459 | The votes of each name summed over the recordings, strongest first |
| MusicBrainz.MergeTags | internal/provider/musicbrainz.go:515-539 | One entry for each folded non-empty name, with the highest count an entry gives it, and nothing else |
| MusicBrainz.MergedKeepsHighest | internal/provider/musicbrainz.go:515-539 | Merging keeps, of all the counts a name is given, the highest |
| MusicBrainz.StrongestFirst | internal/provider/musicbrainz.go:461-471 | Sorted tags have larger counts first and equal ones by name |
| MusicBrainz.CreditNamesTheArtist | internal/provider/musicbrainz.go:388-409 | The artist is the first credit entry with the wanted credited or canonical name, else a credit of several whose whole text is wanted, else nobody; an empty name matches nobody |
| MusicBrainz.MergedPermutes | internal/provider/musicbrainz.go:515-539 | Merging permuted entries gives the same tags, each name once |
| MusicBrainz.FoldTotal | internal/provider/musicbrainz.go:442-459 | Summing lists of named tags neither loses nor invents votes |
| Resolving.ResolvedProfile | internal/provider/resolver.go:45-88 | For every track the resolver returns, the profile is empty exactly without a tag source, its weights sum to 1, 1.5 or 0.5 for recording, mixed or artist tags, and it has one entry for each normalized name of the tags, so that low_data matches the usable count |
| Resolving.ResolvedSource | internal/provider/resolver.go:28-31 | The source says which of the two lists is usable, artist tags are in use only below three usable recording tags, and the tags list every name in use once |
| Resolving.WhenArtistTagsCount | internal/provider/resolver.go:57-88 | The artist is asked exactly below three usable recording tags, the artist's tags are added exactly if some are usable, a failure to get them is the resolver's exactly without usable recording tags or if the error matches Canceled or DeadlineExceeded, and nothing else of the track changes |
| Resolving.ThinAnswerIsLostExactly | internal/provider/resolver.go:68-75 | While the caller is there, usable recording tags are lost exactly if there are fewer than three, the track has an artist, and the error of the artist lookup matches Canceled or DeadlineExceeded |
| Resolving.TimeoutsLoseThinAnswers | internal/provider/resolver.go:68-75 | With the client behind it, a lookup whose context does not end loses them exactly if the attempt that counts runs into the client's own timeout: the first while its body is read, or the second, after a 503 or no response |
| Resolving.TimedOutArtistLosesThinAnswer | internal/provider/resolver.go:70-73 | One usable tag, a caller that is there and an artist lookup that times out twice give an error instead of the track |
| Resolving.ContextErrorOfExchange | internal/provider/musicbrainz.go:322-341 | The error of an exchange matches Canceled or DeadlineExceeded exactly if it broke off by the end of its context or by the client's own timeout |
| Resolving.ListBringsItsWeight | internal/api/handlers.go:275-294 | A list of tags brings all of its weight to the profile's total, or nothing if none is usable |
| Resolving.WeightsAreVoteShares | internal/api/handlers.go:265-294 | A name's weight is its share of the recordings' votes plus half its share of the artist's, where a tag nobody voted for counts as one vote |
| Resolving.ProfileIsPositive | internal/api/handlers.go:276-294 | Every weight of a profile is positive, also when nobody voted |
| Resolving.ProfileIgnoresTagOrder | internal/api/handlers.go:265-294 | The order of a track's tags cannot be seen in its profile |
| Resolving.SearchTrack | internal/provider/resolver.go:47-88 | Thin recording tags are complemented by usable artist tags, and kept if getting those fails with an error that matches neither Canceled nor DeadlineExceeded |
| Resolving.UnionNames | internal/provider/resolver.go:90-103 | Every name of both lists once, in order of first appearance |
| Resolving.AddShares | internal/api/handlers.go:279-294 | Adds to each normalized name its share of the list's votes times the weight, in whatever order the votes are visited |
| Resolving.BuildProfile | internal/api/handlers.go:269-274 | Recording shares at full weight plus artist shares at half |
| TagNormalizer.NormalizeAll | internal/tags/tags.go:108-125 | The normalized names of the tags that are not ignored, each once, in order of first appearance |
| TagNormalizer.UniqueKeepsFirsts | internal/tags/tags.go:108-125 | Removing repeats keeps every name once and keeps the order of first appearance |
| TagNormalizer.New | internal/tags/tags.go:58-93 | Fails at the first line without colon or canonical name; otherwise later lines win, names that clean to nothing or to their canonical name are skipped, and stop-list lines are stored canonical |
| TagNormalizer.CanonicalIsFinal | internal/tags/tags.go:127-133 | With a built table, canonical forms are final for all tags exactly if no canonical name is listed as a variant of another |
| TagNormalizer.IgnoredTags | internal/tags/tags.go:95-106 | A tag is ignored exactly if its canonical form is empty, a year, or that of a stop-list line, however either is spelled; otherwise its name is its canonical form |
| TagNormalizer.CanonicalIfListed | internal/tags/tags.go:127-133 | The canonical form of a tag is the canonical name of the last line that lists its clean form |
| TagNormalizer.CanonicalIfUnlisted | internal/tags/tags.go:127-133 | The canonical form of a tag that no line lists is its clean form |
| TagNormalizer.YearShapeIsYear | internal/tags/tags.go:21-22 | An optional apostrophe, two or four digits and an ending of at most an apostrophe and an s are a year |
| TagNormalizer.YearsHaveTheShape | internal/tags/tags.go:21-22 | Nothing else is a year |
| TagNormalizer.LastLineDecides | internal/tags/tags.go:64-80 | The last line of the synonym table that lists a spelling decides its canonical name |
| TagNormalizer.UnlistedIsUnknown | internal/tags/tags.go:64-80 | The table holds no spelling that no line lists |
| Similarity.WeightedJaccard | internal/similarity/weighted.go:54-82 | The sum of the smaller shares over the sum of the larger ones, whatever order the maps are ranged in |
| Similarity.MinimaAndMaxima | internal/similarity/weighted.go:63-82 | For non-empty profiles the sums of minima S and maxima M satisfy S + M = 2, so the score is S/(2-S) |
| Similarity.ScoreInUnit | internal/similarity/weighted.go:54-62 | The score lies in [0, 1] |
| Similarity.ScoreIsSymmetric | internal/similarity/weighted.go:54-62 | The score is symmetric |
| Similarity.ScoreIgnoresScale | internal/similarity/weighted.go:84-98 | Scaling either profile by a positive factor does not change the score |
| Similarity.ScoreExtremes | internal/similarity/weighted.go:54-82 | The score is 1 exactly if the shares are equal and 0 exactly if no tag is shared |
| Similarity.EmptyScoresZero | internal/similarity/weighted.go:78-81 | A profile without positive weights scores 0 against every other |
| Similarity.DistanceTriangle | internal/similarity/weighted.go:54-82 | 1 - score satisfies the triangle inequality over any three profiles |
| Similarity.SharesSumToOne | internal/similarity/weighted.go:84-98 | The shares of a non-empty profile sum to 1 |
| Similarity.Compare | internal/similarity/weighted.go:25-52 | The lists of shared and own tags, each with the larger share first and then by name, with both scores |
| Similarity.StrongestTagsFirst | internal/similarity/weighted.go:42-44 | A list of own tags shows larger weights first, the shared list larger smaller-shares first, and equal ones by name |
| Similarity.ComparisonIsUnique | internal/similarity/weighted.go:25-52 | Any two enumeration orders give the same result, and the three lists partition the positively weighted tags |
| Similarity.SortByWeight | internal/similarity/weighted.go:109-117 | Lists the same distinct tags, the heavier first and equally heavy ones by name |
| Similarity.CompareGenres | internal/similarity/genre.go:8-29 | The plain Jaccard similarity of the folded non-empty names, 0 if either list has none |
| Similarity.GenreScoreIsCompareGenres | internal/similarity/weighted.go:46-48 | For folded, non-empty tags with positive weights the genre score is what CompareGenres says of the key lists |
| Rerank.SkipNeverOvertakes | internal/analytics/rerank.go:104-145 | On the answers themselves, one more recorded skip for a candidate never moves it ahead of any other, although it lowers the average used by all |
| Rerank.SkipKeepsOthersAhead | internal/analytics/rerank.go:104-145 | A candidate that was ranked ahead of another stays ahead after the other gets one more skip |
| Rerank.OwnRateFalls | internal/analytics/rerank.go:119-125 | The skipped track's keep rate falls by at least as much as the shared average does |
| Rerank.OtherRateFallsLess | internal/analytics/rerank.go:119-125 | Every other track's keep rate falls by at most the shared loss |
| Rerank.RankingIsTheSortedPermutation | internal/analytics/rerank.go:134-145 | For distinct ids the ranking is the one sorted permutation of the scored candidates |
| Rerank.RankingIsByScore | internal/analytics/rerank.go:134-143 | Higher scores come first, equal scores by larger cosine, equal both by smaller id |
| Rerank.AverageWithoutData | internal/analytics/rerank.go:112-115 | Without a candidate that has plays the average is one half |
| Rerank.RankingIgnoresInputOrder | internal/analytics/rerank.go:104-145 | The input order of the candidates does not matter |
| Rerank.SmoothedDistance | internal/analytics/rerank.go:119-125 | A smoothed rate is in [0, 1], between raw rate and average, at plays/(plays+k) of the raw distance from the average |
| Rerank.KeepRatesInAnswer | internal/analytics/rerank.go:117-133 | Every keep rate in the answer is in [0, 1] and between its raw rate and the average |
| Rerank.WithoutBehaviourOrderIsCosine | internal/analytics/rerank.go:95-103 | With weight 0, or when no candidate has plays, the order is cosine descending, then id |
| Rerank.AverageInUnit | internal/analytics/rerank.go:105-115 | The shared average is a rate in [0, 1] |
| Rerank.AverageKeepRate | internal/analytics/rerank.go:105-115 | The mean raw keep rate of the candidates with plays, or the default if none has |
| Rerank.ScoresInAnswer | internal/analytics/rerank.go:95-103 | Every line shows a candidate with its own cosine, and its score lies between cosine and keep rate, the weight's share of the way |
| Rerank.Rerank | internal/analytics/rerank.go:104-145 | Scores every candidate and returns the ranking |
| Similar.Similar | internal/api/vectors.go:116-146 | At most two store calls, a failure exactly if a call failed, and otherwise the first tracks by other artists among the top 1000 |
| Similar.KeepOthers | internal/api/vectors.go:131-139 | The first limit tracks by other artists of one answer |
| Similar.PlainAnswer | internal/api/vectors.go:116-146 | Without exclusion the answer is the head of the ranking; with it, tracks by other artists at growing places of the top 1000, and one that is not shown stands behind all that are, with the answer full |
| Similar.SimilarReranked | internal/api/rerank.go:85-122 | Without statistics the fallback list is exactly the plain answer, with the reason; with them it is the head of the ranking of the wider candidates |
| Similar.OthersOfLonger | internal/api/vectors.go:140-145 | Once a prefix holds enough tracks by other artists, a longer answer changes nothing |
| Similar.RerankedAnswerIsSound | internal/api/rerank.go:95-135 | The reranked list has higher scores first, then cosines, then ids, names no track twice, none by the excluded artist and none outside the top 1000 |
| Publishing.NeverOverTheLimit | internal/events/redpanda.go:88-103 | In every interleaving accepted but undelivered events never exceed the limit, and the counter is their number plus the publishers between a rejected add and its rollback |
| Publishing.NothingIsHandedAfterClose | internal/events/redpanda.go:117-124 | Once Close has held the lock no event is handed to the client |
| Publishing.EveryCallIsCountedOnce | internal/events/redpanda.go:74-104 | The five counters add up to the calls whose outcome is known, and published plus delivery errors to the callbacks that ran |
| Publishing.FatesAreFinal | internal/events/redpanda.go:74-104 | A call's outcome is decided once; only a handed event still waits for its callback |
| Publishing.Redpanda.Add | internal/events/redpanda.go:88-92 | The atomic add accepts exactly while the counter is below the limit |
| Publishing.AddBelowTheLimitIsAccepted | internal/events/redpanda.go:88-92 | In every run an add is accepted exactly below the limit, which, while nobody is about to roll back, is reached only by that many undelivered events |
| Publishing.Redpanda.FailEncode | internal/events/redpanda.go:75-79 | An event that cannot be encoded is counted and goes no further |
| Publishing.Redpanda.Rollback | internal/events/redpanda.go:89-91 | A rejected add is taken back and counted as buffer full |
| Publishing.Redpanda.Deliver | internal/events/redpanda.go:94-102 | The callback frees one place and counts the event as published or lost |
| Publishing.Redpanda.CheckClosed | internal/events/redpanda.go:81-86 | Publish goes on exactly if the publisher is open, and is counted as closed otherwise |
| Publishing.Redpanda.Close | internal/events/redpanda.go:117-124 | Closes under the write lock; only the first call goes on to flush |
| TokenBuckets.AdmittedInAnyWindow | user-service/handlers/ratelimit.go:12-56 | For one host, the requests admitted in any window of length T number at most burst + rps*T, whatever other hosts do |
| TokenBuckets.SlowHostsAreAdmitted | user-service/handlers/ratelimit.go:29-51 | A host's first request, and any at least 1/rps after its previous one, is admitted exactly if the burst is at least one |
| TokenBuckets.BurstIsAdmitted | user-service/handlers/ratelimit.go:30-46 | A host's first requests are admitted up to the burst, at whatever times and whatever other hosts do |
| TokenBuckets.TokensStayInRange | user-service/handlers/ratelimit.go:29-51 | Every bucket holds between 0 and burst tokens in every run |
| TokenBuckets.WindowBalance | user-service/handlers/ratelimit.go:29-51 | Over any window, what a host had plus what it was given covers what was admitted and what is left |
| TokenBuckets.RateLimit.Handle | user-service/handlers/ratelimit.go:29-47 | The locked section refills, caps, admits and charges the host's own bucket and no other |
| Listening.EventsTellTheHistory | frontend/src/services/listening.js:37-85 | For every sequence of calls and any clock, which call reports, for which track, how long, of which type and after which track, read off the calls alone |
| Listening.OneClosingOneLike | frontend/src/services/listening.js:58-80 | Each selection has at most one closing event and at most one like, and the like comes first |
| Listening.EventsChain | frontend/src/services/listening.js:45-56 | An event names a previous track exactly if the call that selected its track closed another, and names the track of that closing event, never its own |
| Listening.SilentWhenIdle | frontend/src/services/listening.js:62-76 | Nothing is reported while nothing is selected |
| Listening.ClampListenMs | frontend/src/services/listening.js:20-22 | listen_ms is zero below zero, one day from a day on, and between them within half a millisecond of the time measured |
| Listening.ListeningSession.SelectTrack | frontend/src/services/listening.js:45-57 | Re-selecting changes nothing; another track closes the selected one and starts with it as its previous track |
| Listening.ListeningSession.FinishTrack | frontend/src/services/listening.js:62-70 | Closes the selected track, if any, and leaves nothing selected |
| Listening.ListeningSession.LikeTrack | frontend/src/services/listening.js:74-80 | Reports the first like of a selection only |
| Collections.FoldPermutes | internal/provider/musicbrainz.go:519-539 | Folding a step that commutes gives the same result for every permutation; used for tag merging, averages and votes |
| Collections.SortedUnique | internal/analytics/rerank.go:134-145 | Two permutations sorted by a strict total order are equal, whatever algorithm sorted them |
| Collections.NameLessMeans | internal/similarity/weighted.go:100-107 | Names are ordered by their first difference, a shorter one before its continuations |

## Findings

- A thin answer can be lost to the client's own timeout. `internal/provider/resolver.go:70-73`
  means to keep the recording tags a song has when the artist's tags cannot be had, and to give
  up only for a caller that has gone. It asks whether the error matches `context.Canceled` or
  `context.DeadlineExceeded`, not whether the caller's context has ended. The HTTP client has a
  timeout of its own (`internal/provider/musicbrainz.go:161`), whose error matches
  `context.DeadlineExceeded` through `UpstreamError.Unwrap`
  (`internal/provider/musicbrainz.go:73`), as `internal/provider/musicbrainz_test.go:643-653`
  asserts. `Resolving.TimedOutArtistLosesThinAnswer` is a song with one usable tag, a caller that
  is there and an artist lookup that times out twice, and the answer is an error. By
  `RateLimiting.TwoTimeoutsTake` those attempts take two timeouts of ten seconds and a pause of
  one, within the thirty seconds a request has by default (`cmd/server/main.go:28`).
  `Resolving.ThinAnswerIsLostExactly` gives the exact condition for any source of artist tags
  and `Resolving.TimeoutsLoseThinAnswers` the one for the client's exchanges, which also has
  the case of a single attempt whose body is cut off by the timeout: its error is wrapped, so
  it matches, and it is not an `UpstreamError`, so it is not retried. That a timeout has the
  same error before and while a body is read is taken from Go's `net/http`, which is not part
  of this model.

## Left out

- Floating-point rounding and NaN, and overflow of counters and durations: numbers are exact.
- Unicode tables: lower-casing, tag folding, tag cleaning and `normalizeArtist` are arbitrary functions; what is proved holds for all of them, with idempotence assumed where a lemma says so.
- The JSON codec: bytes are either an encoded entry, which decodes to itself, or undecodable.
- The library sorts: modelled by a stable insertion sort; the uniqueness lemmas show that any correct sort gives the same lists.
- The text format of the stop list and synonym table: comments, blank lines and the cuts at colons and commas are already done in `SynonymLine`.
- TrackCache.Searcher.ReadCache: SearchTrack is cut into its two accesses to the store; the flight in between is the transition system's, because a lookup waits for other goroutines there.
- Resolving.TimeoutsLoseThinAnswers: the artist cache between resolver and client is left out; a flight's context does not end while a caller waits (`FlightProtocol.CancelledOnlyWhenAbandoned`), and its errors reach the caller unchanged.
- FlightGroups.FlightGroup.Join: goroutines, channels and contexts are the steps of the protocol; the copy each caller gets of a result is the value itself.
- The bypass window for overlapping operations: a get that succeeds clears a window that another operation has just opened, so the bound on store errors is stated for operations that follow one another.
- CacheCore.WindowCoversLast: the clock is taken to be after 1970, so that the end of a window is never the zero that means a healthy store.
- RateLimiting.PauseIsHonouredByEveryone: says nothing of a Retry-After on a 404, which the code treats as an answer and does not read.
- Publishing.NeverOverTheLimit: only the upper bound; a call can be rejected while fewer events are outstanding, because of adds that are about to be rolled back.
- TokenBuckets.SlowHostsAreAdmitted: with a burst of zero every request is refused, so "a slow host is always admitted" holds only with the condition stated.
- The artist cache (`internal/cache/artists.go`): the same protocol as the track cache with a simpler entry.
- The catalogue cache, scrolling and text search in `internal/vectors/qdrant.go`, and the Redis, Qdrant, ClickHouse, Kafka and HTTP clients themselves.
- HTTP handlers, request parsing, middleware, logging, configuration, metrics other than the counters named above.
- The event generator, the Python pipeline, the mood service, user accounts and the React components.
