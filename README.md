# Musibro core in Dafny

This project models the recommendation core of Musibro, a music recommender with two halves:

- a Java half: JPA entities and recommendation engines;
- a Python half: a Streamlit application with its own recommenders, debiasers, evaluator and utilities.

What is modelled:

- **Java entities.** `Track` is a value. `User`, `UserTrackInteraction`, `UserPlaylist` and `TrackRecommendation` are classes whose methods update fields in place:
  - de-duplicating playlist edits, which keep the cached count and total duration;
  - play and skip counters;
  - the clamped implicit rating;
  - clamping preference setters;
  - liked, disliked and recent queries;
  - identity by id.
- **Java engines.** Each one rewrites the scores of a list of recommendation objects in place:
  - `DebiasingEngine`: popularity normalisation, diversity injection, fairness constraints, adversarial boosts and bias metrics;
  - `ContextEngine`: mood, activity and time weights, and the context fit;
  - `ExplorationEngine`: the exploration score, epsilon-greedy, Thompson sampling and contextual bonuses;
  - `HybridRecommendationSystem`: candidate filtering, user-based collaborative filtering over a rating matrix, content-based filtering by cosine similarity, the merge, the four generators and the top-50 ranking.
- **Python `src/ml`.**
  - The content, popularity and hybrid recommenders and the exploration strategy.
  - The popularity debiaser, the fairness enforcer, the diversity injector and the rule-based part of the adversarial debiaser.
  - The evaluator's accuracy, popularity, bias, novelty, coverage and quality metrics, and its history.
- **Python `src/utils`.**
  - Normalisers and similarity, diversity and novelty scores.
  - The TTL session cache and the validators.
  - Duration and star formatting, sanitising and batching.
  - Config validation with weight renormalisation.
- **Other Python pieces.**
  - The track-to-track similarity of the data processor.
  - The home page's search filter and the niche popularity cap.
  - The player's duration text and the context selector's hour bucketing.

Modelling choices:

- `double`/`float` values are exact `real`s.
- Java `int` division and Python `int()` truncate toward zero, and are written out that way.
- Inputs are the clock, every random draw, and the functions the model cannot compute exactly:
  - the square root, `log2`, the sigmoid and Pearson's correlation;
  - Beta samples and learned predictions.

  The properties the code relies on are stated as preconditions.
- Both Java's `sort(...reversed())` and Python's `sorted(..., reverse=True)` are modelled as one stable descending insertion sort.

One consequence of the Java code is proved under a stated condition: `generateRecommendations` hands collaborative filtering only the requesting user's interaction list. When every interaction in that list is the user's own, as the persistence mapping keeps it, no similar user is found and the collaborative list is empty (`OwnInteractionsNoSimilar`, `CollaborativeFiltering`). `setTrackInteractions` accepts any list, so the model does not promise this unconditionally.

## Model

| member | source | states |
|---|---|---|
| Common.SortDesc | src/ml/models.py:190-194 | Python's `sorted(..., reverse=True)` and Java's reversed comparator sort: a permutation of the input, in descending key order |
| Common.SortDescStable | src/ml/models.py:190-194 | the sort is stable: elements with equal keys keep their input order |
| Common.TopOf | src/ml/models.py:414-419 | sorting then slicing `[:n]` keeps at most n input elements, best first, none left out scoring higher, and no repeats from a repeat-free input |
| Common.Take | src/main/java/com/musicrecommendation/ml/HybridRecommendationSystem.java:120-123 | `limit(n)` keeps the first min(n, size) elements unchanged |
| Common.Clamp01 | src/main/java/com/musicrecommendation/model/User.java:170-172 | clamping into [0, 1]: in range stays, below becomes 0, above becomes 1 |
| Text.Lower | src/main/java/com/musicrecommendation/model/User.java:320-322 | lower-casing keeps the length and maps each character |
| Text.LowerIdempotent | src/main/java/com/musicrecommendation/model/User.java:320-329 | lower-casing twice is lower-casing once |
| SessionCache.Stored | src/utils/helpers.py:35-43 | after storing, the key holds the data with the store time; every other key is present and unchanged exactly when it was before; a missing cache is created |
| SessionCache.StoreThenLookup | src/utils/helpers.py:31-57 | a stored entry reads back while younger than the time to live, and the first read after that returns nothing and deletes it |
| SessionCache.StoreOtherKey | src/utils/helpers.py:35-57 | storing one key leaves the lookup of every other key unchanged |
| SessionCache.LookedKeys | src/utils/helpers.py:45-57 | a lookup never adds a key and removes at most the key it read, and it finds data exactly when the key is present and fresh |
| SessionCache.ClearedSpec | src/utils/helpers.py:59-74 | clearing with a pattern keeps exactly the keys not containing it, with their entries unchanged |
| SessionCache.ClearEmptyPattern | src/utils/helpers.py:68-72 | the empty pattern occurs in every key, so it empties the cache |
| SessionCache.Session.constructor | src/utils/helpers.py:37 | a new session has no cache dict yet |
| SessionCache.Session.CacheData | src/utils/helpers.py:35-43 | the session cache becomes the stored cache of the old one |
| SessionCache.Session.GetCachedData | src/utils/helpers.py:45-57 | returns the lookup's result and leaves the cache as the lookup does, expired key deleted |
| SessionCache.Session.ClearCache | src/utils/helpers.py:59-74 | no cache stays no cache, no pattern empties it, and a pattern removes the matching keys |
| SessionCache.CachedCall | src/utils/helpers.py:76-98 | a fresh cached result other than None is returned without calling the function; otherwise the function's result is returned and stored at the write time |
| AppConfig.Normalised | src/utils/config.py:109-110 | rescaling keeps exactly the same feature keys |
| AppConfig.Config.constructor | src/utils/config.py:15-73 | the loaded object holds the given settings |
| AppConfig.Config.NormaliseWeights | src/utils/config.py:109-110 | every weight is divided by the sum, and no key is added or lost |
| AppConfig.Config.ValidateConfig | src/utils/config.py:78-115 | a zero weight sum is a division by zero, any failed check raises with the joined messages, and otherwise validation passes; the weights are rescaled exactly when their sum is off 1 by more than 0.01 |
| AppConfig.Config.ValidateSpotifyCredentials | src/utils/config.py:125-131 | the result is an uncaught division by zero exactly when the weights sum to 0, and otherwise true exactly when validation with credentials required finds no error |
| AppConfig.Config.GetUserPreference | src/utils/config.py:191-208 | a key the session sets is returned from the session; otherwise each of the six configured keys (diversity_weight, novelty_weight, exploration_rate, recommendation_count, theme_color, items_per_page) gives its configured value and any other key the default |
| AppConfig.Load | src/utils/config.py:11-76 | loading fails exactly when the startup validation does not pass; otherwise the object holds the settings with the weights as validation left them |
| AppConfig.ConfigErrorsSpec | src/utils/config.py:80-102 | each message is present exactly when its check fails (credentials only when required), there are at most five, and there are none exactly when every check passes |
| AppConfig.WeightSumScaled | src/utils/config.py:105-110 | dividing every weight by t divides their sum by t |
| AppConfig.NormalisedSumsToOne | src/utils/config.py:105-110 | after rescaling, the eight weights sum to exactly one |
| AppConfig.WeightsAfterIdempotent | src/utils/config.py:104-110 | a second validation leaves the weights the first one produced unchanged |
| AppConfig.DefaultWeightsSum | src/utils/config.py:40-49 | the default weights cover the eight features and sum to exactly one |
| AppConfig.DefaultsLoad | src/utils/config.py:15-76 | with nothing set in the environment, startup validation passes and leaves the default weights as they are |
| AppConfig.CredentialChecksAgree | src/utils/config.py:125-131 | with in-range defaults, the method check succeeds exactly when both credentials are set, agreeing with the module-level `validate_spotify_credentials` (lines 329-332) |
| AppConfig.PreferenceAfterUpdate | src/utils/config.py:183-208 | after `update_user_preferences`, an updated key reads back its new value and every other key reads as before |
| ContextEngine.MoodScore | src/main/java/com/musicrecommendation/ml/context/ContextEngine.java:88-183 | the mood factor lies between 1 and 1.4·1.3·1.2, and is 1 with no mood or the neutral mood, which matches no case |
| ContextEngine.ActivityScore | src/main/java/com/musicrecommendation/ml/context/ContextEngine.java:188-271 | the activity factor lies between 1 and 1.4·1.3·1.2, and is 1 with no activity or the general activity, which matches no case |
| ContextEngine.TimeScore | src/main/java/com/musicrecommendation/ml/context/ContextEngine.java:276-326 | the time factor lies between 1 and 1.3·1.2·1.1, is 1 with no time of day, and for DAY is 1.1 exactly when the energy is between 0.4 and 0.7 |
| ContextEngine.ContextScore | src/main/java/com/musicrecommendation/ml/context/ContextEngine.java:70-83 | the context score is at least 1, and exactly 1 with no context or only the neutral mood and general activity |
| ContextEngine.WeightedNeverLower | src/main/java/com/musicrecommendation/ml/context/ContextEngine.java:60-61 | multiplying a non-negative score by a factor of at least 1 never lowers it, and a factor of 1 leaves it unchanged |
| ContextEngine.ContextWeightedNeverLower | src/main/java/com/musicrecommendation/ml/context/ContextEngine.java:59-62 | context weighting never lowers a non-negative score, and leaves every score unchanged without context |
| ContextEngine.ApplyContextWeights | src/main/java/com/musicrecommendation/ml/context/ContextEngine.java:46-65 | the same list comes back, and each recommendation's score is its old score times its track's context score under the user's mood, activity and time of day |
| ContextEngine.TimeOfDayForHour | src/main/java/com/musicrecommendation/ml/context/ContextEngine.java:331-344 | morning exactly from 5 to 11, day from 12 to 16, evening from 17 to 21, night otherwise |
| ContextEngine.HighlightsShape | src/main/java/com/musicrecommendation/ml/context/ContextEngine.java:367-379 | the feature highlights are whole segments, each ending in ". " |
| ContextEngine.RawContextDescriptionShape | src/main/java/com/musicrecommendation/ml/context/ContextEngine.java:350-379 | the built text is empty or starts with a non-space character and ends in ". " |
| ContextEngine.ContextDescriptionDropsLastSpace | src/main/java/com/musicrecommendation/ml/context/ContextEngine.java:349-382 | trimming removes only the final space, so the description is the built text minus its last character, and empty when no segment applies |
| ContextEngine.TrimShaped | src/main/java/com/musicrecommendation/ml/context/ContextEngine.java:381 | trimming text made of whole segments drops only its final space |
| ContextEngine.ContextDescriptionStartsWithMood | src/main/java/com/musicrecommendation/ml/context/ContextEngine.java:352-355 | with a mood set, the description starts with "Mood: " and the mood's lower-case name and a period |
| ContextEngine.ContextDescriptionEmpty | src/main/java/com/musicrecommendation/ml/context/ContextEngine.java:349-382 | with no context and no feature above 0.8 the description is empty |
| ContextEngine.ContextFitScore | src/main/java/com/musicrecommendation/ml/context/ContextEngine.java:387-394 | 0.4·mood + 0.4·activity + 0.2·time lies between 1 and the weighted sum of the largest factors |
| ContextEngine.ContextFitScoreOne | src/main/java/com/musicrecommendation/ml/context/ContextEngine.java:387-394 | the fit score is 1 exactly when all three factors are 1 |
| Debiasing.PenaltyProperties | src/ml/debiasing.py:72-89 | the penalty lies strictly between 0 and 1, is exactly 1/2 when the fitted range is empty, and never decreases with popularity |
| Debiasing.DebiasedAll | src/ml/debiasing.py:43-62 | one debiased copy per recommendation, in input order |
| Debiasing.DebiasedProps | src/ml/debiasing.py:43-62 | each copy keeps its id, records the original score and a penalty in (0,1), and for a strength in [0,1] and a non-negative score its new score lies between (1 - strength)·score and the score |
| Debiasing.DebiasedAllIds | src/ml/debiasing.py:43-62 | the copies carry the input ids in input order |
| Debiasing.DebiasedAllWell | src/ml/debiasing.py:43-62 | every copy is a well-debiased copy of some input entry |
| Debiasing.DebiasScoresSpec | src/ml/debiasing.py:38-67 | debiasing keeps the items (as a multiset of ids), sorts them by debiased score, largest first, and each is a well-debiased copy of an input entry |
| Debiasing.DebiasFactor | src/ml/debiasing.py:55 | for a non-negative score, a strength in [0,1] and a penalty in (0,1) the debiased score lies between (1 - strength)·score and the score |
| Debiasing.DebiasFavoursNiche | src/ml/debiasing.py:38-62 | of two items with the same non-negative score, the more popular one never ends with the larger debiased score |
| Debiasing.DebiasScores | src/ml/debiasing.py:38-70 | the result's contents are the debiased, sorted copies, every one a new dict; the caller's dicts are not written; without fitted statistics the caller's list comes back |
| Debiasing.SortedNew | src/ml/debiasing.py:57-65 | new dicts holding the contents sorted by score, largest first |
| Debiasing.ScaledCount | src/ml/debiasing.py:209 | `int(len * x)` is non-negative for non-negative x and at most the length for x in [0,1] |
| Debiasing.CurrentArtists | src/ml/debiasing.py:148-156 | at most one artist per recommendation, each a truthy id |
| Debiasing.CurrentGenres | src/ml/debiasing.py:149-158 | the genres are exactly the union of the genres of the current artists |
| Debiasing.NicheRatio | src/ml/debiasing.py:180-181 | the niche ratio lies in [0,1], and is 0 with no artist |
| Debiasing.FairnessViolationsSpec | src/ml/debiasing.py:175-198 | the niche violation is reported exactly when the niche ratio falls short, with a positive deficit that closes the gap; the genre violation exactly when there are fewer genres than required, with a positive deficit |
| Debiasing.MainstreamIndices | src/ml/debiasing.py:212-217 | exactly the positions of mainstream tracks, strictly increasing |
| Debiasing.FlagTargetsSpec | src/ml/debiasing.py:206-222 | the flagged positions are the first `int(len * deficit)` mainstream positions, or all of them if fewer; nothing is flagged without a niche violation |
| Debiasing.ItemIdList | src/ml/debiasing.py:151-152 | the ids of the recommendations, in order |
| Debiasing.ApplyFairnessCorrections | src/ml/debiasing.py:200-232 | the same dicts come back in the same order, and exactly the dicts at the flagged positions gain `needs_niche_replacement` |
| Debiasing.SetFlag | src/ml/debiasing.py:222 | the dict gains the flag and nothing else |
| Debiasing.EnforceFairness | src/ml/debiasing.py:143-173 | the violations are those of the recommendations' artists and genres; the same list comes back, and with a violation the flagged dicts gain `needs_niche_replacement` while without one nothing changes |
| Debiasing.GapBounds | src/ml/debiasing.py:424-431 | the summed feature gaps are non-negative and, on the assumed scales, at most their number |
| Debiasing.GapZero | src/ml/debiasing.py:424-431 | a track at the user's mean on every shared feature has no gap |
| Debiasing.JaccardBounds | src/ml/debiasing.py:408-410 | the genre overlap of two non-empty sets lies in [0,1], and is 1 for equal sets |
| Debiasing.DiversityScoreBounds | src/ml/debiasing.py:397-437 | the diversity score is never negative, at most 1 on the assumed scales, and 0 for a track matching the profile exactly |
| Debiasing.Candidates | src/ml/debiasing.py:317-327 | one scored copy per pool entry not already recommended, each carrying a diversity score |
| Debiasing.CandidatesFromPool | src/ml/debiasing.py:320-327 | every candidate is a scored copy of a pool entry |
| Debiasing.WithCombinedIdempotent | src/ml/debiasing.py:342-346 | writing the combined score twice gives the same contents as once |
| Debiasing.CombinedAll | src/ml/debiasing.py:342-346 | one rescored entry per entry, in order |
| Debiasing.InjectDiversitySpec | src/ml/debiasing.py:307-350 | with n = `int(len * strength)` the result has max(0, len - n) + min(n, eligible candidates) entries, never more than the input for a strength of at most 1, sorted by combined score, each carrying one |
| Debiasing.InjectedShape | src/ml/debiasing.py:332-350 | the kept and injected entries, rescored and sorted, have the stated length and order |
| Debiasing.InjectedAreNew | src/ml/debiasing.py:317-339 | every injected candidate comes from the pool and was not already recommended |
| Debiasing.CollectCandidates | src/ml/debiasing.py:317-327 | the loop yields new dicts holding the candidates, none with a recommended id |
| Debiasing.SetCombined | src/ml/debiasing.py:342-346 | one dict gets its combined score |
| Debiasing.WriteCombined | src/ml/debiasing.py:342-346 | every dict of the list gets its combined score |
| Debiasing.InjectDiversity | src/ml/debiasing.py:307-353 | an unknown user gets the list back untouched; otherwise the result holds the injected contents, the caller's list is reordered by ascending score and, when no dict repeats, its dicts end with the n dropped ones unchanged and the kept ones rescored by combined score; each result dict is the caller's own or a new copy of an unrecommended candidate |
| Debiasing.InjectKnown | src/ml/debiasing.py:314-350 | for a known user the caller's dicts end in ascending score order, the result holds the injected contents and, when no dict repeats, the caller's dicts hold the dropped entries unchanged followed by the kept entries rescored |
| Debiasing.InjectedOfSelected | src/ml/debiasing.py:336-350 | rescoring and sorting the kept and injected entries gives the injected contents, and the caller's list rescored after its first n entries is the reordered list |
| Debiasing.SelectDiverse | src/ml/debiasing.py:316-339 | the caller's dicts sorted by ascending score, and the kept entries: those after the n lowest-scoring, followed by new copies of the first n candidates by diversity; when no dict repeats, none of the n dropped dicts is among the kept ones |
| Debiasing.RescoreKept | src/ml/debiasing.py:336-347 | the combined-score rescoring seen from the caller's sorted list: the result holds the injected contents and, when no dict repeats, the caller's list holds the dropped entries unchanged followed by the kept ones rescored |
| Debiasing.RescoreLists | src/ml/debiasing.py:336-347 | given the contents of the caller's sorted list and of the sorted candidates: the result holds the kept and injected contents rescored and sorted by combined score, the caller's scores still ascend, and, when no dict repeats, the caller's list holds its first n entries unchanged followed by the rest rescored |
| Debiasing.RescorePlan | src/ml/debiasing.py:337-339 | before any write, the list to rescore holds the kept then the injected contents, each kept dict sits n places earlier in the caller's list, and without repeated dicts none of the first n is rescored |
| Debiasing.ReorderedAfter | src/ml/debiasing.py:334-347 | the caller's sorted list after rescoring is its first n entries followed by the combined-score rescoring of the rest |
| Debiasing.KeptDicts | src/ml/debiasing.py:337-338 | `recommendations[n:]` lists the caller's sorted dicts after the first n, at the same offsets |
| Debiasing.Rescore | src/ml/debiasing.py:341-348 | the dicts get their combined scores and come back sorted by them, with no score of any other dict changed |
| Debiasing.AscendingScores | src/ml/debiasing.py:336 | a list sorted by the ascending key has ascending scores |
| Debiasing.InjectedDicts | src/ml/debiasing.py:338-339 | the dicts of the result are the caller's own or new candidate copies with unrecommended ids |
| Debiasing.DetectBiasInSessionSpec | src/ml/debiasing.py:555-577 | a session is flagged exactly when its mean popularity exceeds 75 or its artist diversity is below 0.7; the empty session is always flagged, and distinct artists with a mean popularity of at most 75 never are |
| Debiasing.PenaltyCount | src/ml/debiasing.py:610 | `int(len * 0.3)` never exceeds the length |
| Debiasing.DampedScoreBounds | src/ml/debiasing.py:616 | damping a non-negative score keeps it between 0 and the score, one damping being a factor 0.7 |
| Debiasing.PenaliseFirst | src/ml/debiasing.py:613-616 | each of the first n dicts is flagged and has its score multiplied by 0.7 once per occurrence there; the others are unchanged |
| Debiasing.Damp | src/ml/debiasing.py:616 | the score is multiplied by 0.7 |
| Debiasing.ApplyBiasCorrections | src/ml/debiasing.py:603-621 | the list is sorted by popularity, most popular first; the first `int(len * 0.3)` are flagged and damped by 0.7; the result is a permutation sorted by score, largest first |
| Debiasing.PenalisedOnce | src/ml/debiasing.py:610-616 | without repeated dicts each of the first n is penalised exactly once and no other is |
| Debiasing.ApplyAdversarialDebiasing | src/ml/debiasing.py:579-601 | without a fitted detector, or a bias probability of at most 0.7, nothing changes; otherwise the first ⌊0.3·len⌋ dicts by popularity are flagged and their scores damped by 0.7 per occurrence, every other dict keeps its contents, and the result is the same dicts sorted by the new scores, largest first |
| DebiasingEngine.PresentPops | src/main/java/com/musicrecommendation/ml/debiasing/DebiasingEngine.java:33-39 | the statistics receive at most one value per track, and none exactly when no track has a popularity |
| DebiasingEngine.SampleVariance | src/main/java/com/musicrecommendation/ml/debiasing/DebiasingEngine.java:44 | the sample variance of two or more values is non-negative |
| DebiasingEngine.StdDev | src/main/java/com/musicrecommendation/ml/debiasing/DebiasingEngine.java:44 | the standard deviation is non-negative, given a square root that is |
| DebiasingEngine.NormalizedPopularity | src/main/java/com/musicrecommendation/ml/debiasing/DebiasingEngine.java:51-52 | the normalised popularity is clamped into [0,1] |
| DebiasingEngine.NormalizedPopularityAntitone | src/main/java/com/musicrecommendation/ml/debiasing/DebiasingEngine.java:51-52 | a less popular track never gets a lower normalised popularity |
| DebiasingEngine.PopularityBias | src/main/java/com/musicrecommendation/ml/debiasing/DebiasingEngine.java:55 | with a non-negative weight the bias score lies between 0 and the weight |
| DebiasingEngine.NormalizedScoreInUnit | src/main/java/com/musicrecommendation/ml/debiasing/DebiasingEngine.java:59 | with weight, old score and bias in [0,1] the blended score stays in [0,1] |
| DebiasingEngine.NormalizeEach | src/main/java/com/musicrecommendation/ml/debiasing/DebiasingEngine.java:47-61 | every recommendation with a popularity gets its bias score and blended score from the given statistics; the others keep their scores |
| DebiasingEngine.ApplyPopularityNormalization | src/main/java/com/musicrecommendation/ml/debiasing/DebiasingEngine.java:25-64 | with no popularity at all nothing changes; otherwise every recommendation with a popularity is normalised against the mean and standard deviation of the present popularities and the others keep their scores |
| DebiasingEngine.ArtistCount | src/main/java/com/musicrecommendation/ml/debiasing/DebiasingEngine.java:77-78 | an artist's group is never larger than the list |
| DebiasingEngine.GenreCount | src/main/java/com/musicrecommendation/ml/debiasing/DebiasingEngine.java:80-82 | a genre's group is never larger than the list |
| DebiasingEngine.TrackDiversity | src/main/java/com/musicrecommendation/ml/debiasing/DebiasingEngine.java:161-195 | a track's diversity is at most 1, and non-negative when its novelty is |
| DebiasingEngine.TrackDiversitySingleArtist | src/main/java/com/musicrecommendation/ml/debiasing/DebiasingEngine.java:168-174 | a track whose artist appears once, with no genre and no bonus, gets exactly 0.6·(1 - 1/n) |
| DebiasingEngine.ApplyDiversityInjection | src/main/java/com/musicrecommendation/ml/debiasing/DebiasingEngine.java:69-94 | each recommendation records its track's diversity within the list, and its score gains that diversity times the target |
| DebiasingEngine.InjectAll | src/main/java/com/musicrecommendation/ml/debiasing/DebiasingEngine.java:85-91 | each recommendation records its given diversity and gains it times the target on its score |
| DebiasingEngine.InjectOne | src/main/java/com/musicrecommendation/ml/debiasing/DebiasingEngine.java:86-90 | one recommendation records the diversity and gains it times the target |
| DebiasingEngine.Diversities | src/main/java/com/musicrecommendation/ml/debiasing/DebiasingEngine.java:85-86 | one diversity per track, each computed against the whole list |
| DebiasingEngine.IdealPerArtist | src/main/java/com/musicrecommendation/ml/debiasing/DebiasingEngine.java:112-113 | the ideal number of tracks per artist lies between 1 and the list length |
| DebiasingEngine.FairScoreDirection | src/main/java/com/musicrecommendation/ml/debiasing/DebiasingEngine.java:120-130 | with non-negative threshold and score, an over-represented artist's score never rises, an under-represented one's never falls, and others are unchanged |
| DebiasingEngine.AdjustEach | src/main/java/com/musicrecommendation/ml/debiasing/DebiasingEngine.java:116-131 | every score is adjusted by its artist's count against the given ideal |
| DebiasingEngine.ApplyFairnessConstraints | src/main/java/com/musicrecommendation/ml/debiasing/DebiasingEngine.java:99-134 | every score is adjusted by its artist's count against the list's ideal number of tracks per artist |
| DebiasingEngine.MaxArtistCount | src/main/java/com/musicrecommendation/ml/debiasing/DebiasingEngine.java:215-218 | the largest artist group: no track's artist has a larger one, it belongs to some track, and it is 0 for no track |
| DebiasingEngine.MaxGenreCount | src/main/java/com/musicrecommendation/ml/debiasing/DebiasingEngine.java:224-229 | the largest genre group among tracks with a genre: none is larger, and a positive value belongs to some track |
| DebiasingEngine.ArtistConcentratedSpec | src/main/java/com/musicrecommendation/ml/debiasing/DebiasingEngine.java:215-221 | the artist pattern holds exactly when some artist has more than 30% of the tracks |
| DebiasingEngine.GenreConcentratedSpec | src/main/java/com/musicrecommendation/ml/debiasing/DebiasingEngine.java:224-233 | the genre pattern holds exactly when some genre has more than half of the tracks |
| DebiasingEngine.PatternListSpec | src/main/java/com/musicrecommendation/ml/debiasing/DebiasingEngine.java:200-236 | each pattern is listed exactly when its condition holds, and at most once |
| DebiasingEngine.IdentifyBiasPatternsSpec | src/main/java/com/musicrecommendation/ml/debiasing/DebiasingEngine.java:200-236 | popularity bias is reported exactly when the mean popularity (missing as 0) exceeds 70, artist concentration exactly when some artist exceeds 30%, genre concentration exactly when some genre exceeds 50%, each at most once |
| DebiasingEngine.CalculateAdversarialScore | src/main/java/com/musicrecommendation/ml/debiasing/DebiasingEngine.java:241-265 | the loop's score is the sum of the bonuses of the given patterns |
| DebiasingEngine.AdversarialScoreOfPatterns | src/main/java/com/musicrecommendation/ml/debiasing/DebiasingEngine.java:241-265 | under the list's patterns a track gains 0.3 when popularity bias holds and it is below 50, plus 0.2 per concentration pattern, at most 0.7 in all |
| DebiasingEngine.BonusesOfList | src/main/java/com/musicrecommendation/ml/debiasing/DebiasingEngine.java:245-262 | the bonuses of a pattern list are 0.3, 0.2 and 0.2 for the patterns it holds |
| DebiasingEngine.AddAdversarialScores | src/main/java/com/musicrecommendation/ml/debiasing/DebiasingEngine.java:150-153 | each score gains its track's bonuses under the given patterns |
| DebiasingEngine.ApplyAdversarialDebiasing | src/main/java/com/musicrecommendation/ml/debiasing/DebiasingEngine.java:139-156 | each score gains its track's bonuses under the patterns of the whole list |
| DebiasingEngine.Snapshot | src/main/java/com/musicrecommendation/ml/debiasing/DebiasingEngine.java:289 | the snapshot pairs each recommendation with its current score, in list order |
| DebiasingEngine.SortByScore | src/main/java/com/musicrecommendation/ml/debiasing/DebiasingEngine.java:289 | the sorted list is a permutation of the recommendations in descending order of their current scores, ties kept in list order |
| DebiasingEngine.SortedSnapshot | src/main/java/com/musicrecommendation/ml/debiasing/DebiasingEngine.java:289 | the recommendations behind the sorted snapshot are the same ones, in descending order of score |
| DebiasingEngine.SortedSnapshotPerm | src/main/java/com/musicrecommendation/ml/debiasing/DebiasingEngine.java:289 | sorting loses and adds no recommendation |
| DebiasingEngine.SortedSnapshotOrder | src/main/java/com/musicrecommendation/ml/debiasing/DebiasingEngine.java:289 | the sorted recommendations' scores never increase along the list |
| DebiasingEngine.ApplyComprehensiveDebiasing | src/main/java/com/musicrecommendation/ml/debiasing/DebiasingEngine.java:270-293 | each recommendation ends with the score the four passes give it from its old score (popularity normalisation, diversity injection, artist fairness, then the bias-pattern bonuses), the normalised bias score and its diversity score; the result is the rescored list sorted by descending score, a permutation of it |
| DebiasingEngine.GenreSeq | src/main/java/com/musicrecommendation/ml/debiasing/DebiasingEngine.java:321-324 | the present genres, one at most per track, exactly the genres some track has |
| DebiasingEngine.ArtistDiversity | src/main/java/com/musicrecommendation/ml/debiasing/DebiasingEngine.java:314-318 | distinct artists per track lies in (0,1] |
| DebiasingEngine.GenreDiversity | src/main/java/com/musicrecommendation/ml/debiasing/DebiasingEngine.java:321-327 | distinct genres per track lies in [0,1], and is 0 exactly when no track has a genre |
| DebiasingEngine.IndependentRatio | src/main/java/com/musicrecommendation/ml/debiasing/DebiasingEngine.java:330-334 | the share of independent tracks lies in [0,1] |
| DebiasingEngine.CalculateBiasMetrics | src/main/java/com/musicrecommendation/ml/debiasing/DebiasingEngine.java:298-343 | the metrics are empty exactly for an empty list; otherwise artist diversity lies in (0,1], genre diversity and independent ratio in [0,1] |
| DebiasingEngine.BiasMetricsInUnit | src/main/java/com/musicrecommendation/ml/debiasing/DebiasingEngine.java:305-340 | with popularities in [0,100] the popularity bias and the overall bias score lie in [0,1] |
| DebiasingEngine.DistinctArtistsFullDiversity | src/main/java/com/musicrecommendation/ml/debiasing/DebiasingEngine.java:314-318 | a list whose artists are pairwise different has artist diversity 1 |
| HybridRecommendationSystem.UnlikedCandidates | src/main/java/com/musicrecommendation/ml/HybridRecommendationSystem.java:56-64 | the filtered candidates are exactly the candidates whose Spotify id matches no liked track, never more than given |
| HybridRecommendationSystem.ExperimentalExcludesComfortZone | src/main/java/com/musicrecommendation/ml/HybridRecommendationSystem.java:166-180 | a track is left out of the experiments iff its genre and artist are both preferred and its novelty is at most 0.7 |
| HybridRecommendationSystem.NoveltyScore | src/main/java/com/musicrecommendation/ml/HybridRecommendationSystem.java:302-326 | the novelty score never exceeds 1 |
| HybridRecommendationSystem.NoveltyScoreInUnit | src/main/java/com/musicrecommendation/ml/HybridRecommendationSystem.java:302-326 | with in-range track data and a non-negative preference the novelty score lies in [0, 1] |
| HybridRecommendationSystem.NicheTrackSaturates | src/main/java/com/musicrecommendation/ml/HybridRecommendationSystem.java:133-142 | every niche candidate reaches the cap 1 once the novelty preference is at least 0.75 |
| HybridRecommendationSystem.MatrixOfCells | src/main/java/com/musicrecommendation/ml/HybridRecommendationSystem.java:331-343 | the matrix has a cell exactly for each (user, track) pair of the interactions |
| HybridRecommendationSystem.MatrixOfLastWins | src/main/java/com/musicrecommendation/ml/HybridRecommendationSystem.java:334-340 | a cell holds the rating of the last interaction for its pair (a later put overwrites) |
| HybridRecommendationSystem.BuildUserItemMatrix | src/main/java/com/musicrecommendation/ml/HybridRecommendationSystem.java:331-343 | the loop builds exactly the matrix of the interactions' entries |
| HybridRecommendationSystem.Correlation | src/main/java/com/musicrecommendation/ml/HybridRecommendationSystem.java:441-464 | fewer than two common items give correlation 0 |
| HybridRecommendationSystem.FindSimilarUsers | src/main/java/com/musicrecommendation/ml/HybridRecommendationSystem.java:348-371 | none when the target has no row; otherwise each other user whose correlation exceeds the threshold, each once, and only those |
| HybridRecommendationSystem.OnlyTargetNoSimilarUsers | src/main/java/com/musicrecommendation/ml/HybridRecommendationSystem.java:356-360 | a matrix holding only the target's row yields no similar user, since the target itself is skipped |
| HybridRecommendationSystem.OwnInteractionsNoSimilar | src/main/java/com/musicrecommendation/ml/HybridRecommendationSystem.java:254-257 | when every interaction is the user's own, nobody is similar to the user |
| HybridRecommendationSystem.CollaborativeScoreInRange | src/main/java/com/musicrecommendation/ml/HybridRecommendationSystem.java:376-390 | with ratings in [0, 5] the collaborative score is in [0, 5] |
| HybridRecommendationSystem.CollaborativeScoreUnanimous | src/main/java/com/musicrecommendation/ml/HybridRecommendationSystem.java:376-390 | the score is a mean: when every similar rater gave the track the same rating, the score is that rating |
| HybridRecommendationSystem.FeatureProfileInUnitCube | src/main/java/com/musicrecommendation/ml/HybridRecommendationSystem.java:395-415 | the average of in-range feature vectors lies in the unit cube |
| HybridRecommendationSystem.FeatureProfileSingle | src/main/java/com/musicrecommendation/ml/HybridRecommendationSystem.java:395-415 | the profile of one liked track is that track's feature vector |
| HybridRecommendationSystem.CalculateUserFeatureProfile | src/main/java/com/musicrecommendation/ml/HybridRecommendationSystem.java:395-415 | the array loops return a fresh 9-element profile equal to the average feature vector (zeros with no liked track) |
| HybridRecommendationSystem.AddFeatures | src/main/java/com/musicrecommendation/ml/HybridRecommendationSystem.java:403-406 | the inner loop adds the features position by position |
| HybridRecommendationSystem.DivideFeatures | src/main/java/com/musicrecommendation/ml/HybridRecommendationSystem.java:410-412 | the final loop turns the sums into averages |
| HybridRecommendationSystem.CosineSymmetric | src/main/java/com/musicrecommendation/ml/HybridRecommendationSystem.java:420-436 | cosine similarity is symmetric |
| HybridRecommendationSystem.CosineZeroVector | src/main/java/com/musicrecommendation/ml/HybridRecommendationSystem.java:431-433 | a zero vector is similar to nothing (score 0) |
| HybridRecommendationSystem.CosineSelf | src/main/java/com/musicrecommendation/ml/HybridRecommendationSystem.java:420-436 | with an exact square root a non-zero vector has similarity 1 with itself |
| HybridRecommendationSystem.DotSums | src/main/java/com/musicrecommendation/ml/HybridRecommendationSystem.java:421-429 | the loop computes the dot product and both squared norms |
| HybridRecommendationSystem.CosineSimilarity | src/main/java/com/musicrecommendation/ml/HybridRecommendationSystem.java:420-436 | the method returns the cosine similarity, 0 for a zero norm |
| HybridRecommendationSystem.CombinedScoresClosedForm | src/main/java/com/musicrecommendation/ml/HybridRecommendationSystem.java:97-113 | the merged scores cover both lists' tracks: 0.4·collaborative + 0.6·content for a track in both, content·0.6 for content only, unchanged for collaborative only |
| HybridRecommendationSystem.IndexCollaborative | src/main/java/com/musicrecommendation/ml/HybridRecommendationSystem.java:100-102 | the collaborative loop indexes every recommendation under its track id |
| HybridRecommendationSystem.BlendOne | src/main/java/com/musicrecommendation/ml/HybridRecommendationSystem.java:105-112 | one content step blends into an existing entry or adds the content-weighted recommendation |
| HybridRecommendationSystem.BlendContent | src/main/java/com/musicrecommendation/ml/HybridRecommendationSystem.java:105-113 | the content loop yields the blended score map over the same objects |
| HybridRecommendationSystem.ValuesInOrderIndexed | src/main/java/com/musicrecommendation/ml/HybridRecommendationSystem.java:115 | the listed values hold one recommendation per id, each with its merged score |
| HybridRecommendationSystem.MergeById | src/main/java/com/musicrecommendation/ml/HybridRecommendationSystem.java:97-113 | both loops build a track-id index whose scores are the merged scores |
| HybridRecommendationSystem.CombineRecommendations | src/main/java/com/musicrecommendation/ml/HybridRecommendationSystem.java:97-115 | the combined list has one recommendation per merged track, drawn from the inputs, each scored by the merge rule |
| HybridRecommendationSystem.PrefixDominates | src/main/java/com/musicrecommendation/ml/HybridRecommendationSystem.java:120-123 | the first n of a score-sorted list are sorted, distinct, and dominate the rest |
| HybridRecommendationSystem.RankTop | src/main/java/com/musicrecommendation/ml/HybridRecommendationSystem.java:120-123 | the stable descending sort cut at 50 keeps the best-scored recommendations, none left out scoring higher |
| HybridRecommendationSystem.NewRecommendations | src/main/java/com/musicrecommendation/ml/HybridRecommendationSystem.java:140-143 | one fresh recommendation per track, with its score and type, in order |
| HybridRecommendationSystem.RecommendAbove | src/main/java/com/musicrecommendation/ml/HybridRecommendationSystem.java:260-265 | a fresh recommendation of the type for exactly the candidates whose score exceeds the threshold, in order, carrying that score |
| HybridRecommendationSystem.CollaborativeFiltering | src/main/java/com/musicrecommendation/ml/HybridRecommendationSystem.java:245-268 | nothing without interactions or when only the user's own interactions exist; otherwise FOR_YOU recommendations for exactly the candidates with a positive mean rating among similar users |
| HybridRecommendationSystem.ContentBasedFiltering | src/main/java/com/musicrecommendation/ml/HybridRecommendationSystem.java:273-297 | nothing without liked tracks; otherwise FOR_YOU recommendations for exactly the candidates more than 0.7 cosine-similar to the profile, scored by it |
| HybridRecommendationSystem.FilterBoth | src/main/java/com/musicrecommendation/ml/HybridRecommendationSystem.java:91-94 | the two passes yield fresh, non-repeating FOR_YOU recommendations of candidates |
| HybridRecommendationSystem.BlendedCandidates | src/main/java/com/musicrecommendation/ml/HybridRecommendationSystem.java:91-115 | the merge yields fresh FOR_YOU recommendations of candidates, one per track |
| HybridRecommendationSystem.ForYouRecommendations | src/main/java/com/musicrecommendation/ml/HybridRecommendationSystem.java:86-124 | the blended pool holds one fresh FOR_YOU recommendation per merged track id, each scored by the merged score normalised with weight 0.2 and no injection; the result is the best 50 of that pool by descending score, none left out scoring higher |
| HybridRecommendationSystem.UserCollaborative | src/main/java/com/musicrecommendation/ml/HybridRecommendationSystem.java:91 | the collaborative pass over the user's own interactions: fresh distinct FOR_YOU recommendations of candidates whose ids and scores are the collaborative part, nothing without interactions |
| HybridRecommendationSystem.PoolScoredFrom | src/main/java/com/musicrecommendation/ml/HybridRecommendationSystem.java:117-118 | scores each equal to the generated score of the first score `base(t)` describe the pool as PoolScored |
| HybridRecommendationSystem.GenerationScores | src/main/java/com/musicrecommendation/ml/HybridRecommendationSystem.java:146-147 | normalisation with the weight, then injection towards the target when there is one, leaves each recommendation with the generated score of its first score |
| HybridRecommendationSystem.NormalizedScores | src/main/java/com/musicrecommendation/ml/HybridRecommendationSystem.java:118 | popularity normalisation alone leaves each recommendation with the normalised score of its first score |
| HybridRecommendationSystem.InjectedScores | src/main/java/com/musicrecommendation/ml/HybridRecommendationSystem.java:146-147 | normalisation then diversity injection leave each recommendation with the injected score of its normalised score |
| HybridRecommendationSystem.GenerationRank | src/main/java/com/musicrecommendation/ml/HybridRecommendationSystem.java:118-123 | the scoring steps as GenerationScores states, then the best 50 of the rescored list by descending score, none left out scoring higher |
| HybridRecommendationSystem.ScoredPool | src/main/java/com/musicrecommendation/ml/HybridRecommendationSystem.java:140-152 | one fresh recommendation of the kind per given track, in order, scored by the base score, normalised, injected and cut to the best 50 |
| HybridRecommendationSystem.BlendedPoolRank | src/main/java/com/musicrecommendation/ml/HybridRecommendationSystem.java:91-123 | the blended candidates, one per merged track id, rescored as GenerationScores states from the merged scores and cut to the best 50 |
| HybridRecommendationSystem.NewNicheRecommendations | src/main/java/com/musicrecommendation/ml/HybridRecommendationSystem.java:129-153 | the pool is one fresh NEW_NICHE recommendation per niche candidate (novelty > 0.6, popularity < 50, independent), in order, scored by its novelty score, normalised with weight 0.8 and injected towards 0.6; the result is the best 50 of it by descending score |
| HybridRecommendationSystem.ExperimentalRecommendations | src/main/java/com/musicrecommendation/ml/HybridRecommendationSystem.java:158-196 | the pool is one fresh EXPERIMENTAL recommendation per candidate outside the comfort zone, in order, scored by its exploration score, normalised with weight 1.0 and injected towards 0.8; the result is the best 50 of it by descending score |
| HybridRecommendationSystem.HybridRecommendations | src/main/java/com/musicrecommendation/ml/HybridRecommendationSystem.java:201-240 | the blended pool holds one fresh FOR_YOU recommendation per merged track id, scored by the merged score normalised with the debiasing weight 0.3 and injected towards 0.4; the result is the best 50 of it by descending score |
| HybridRecommendationSystem.WeightAndExplore | src/main/java/com/musicrecommendation/ml/HybridRecommendationSystem.java:469-476 | the new scores are the context-weighted old ones, then explored as the exploration engine does when the level exceeds 0.5; no non-negative score goes down; failure exactly when exploration meets an incomplete context |
| HybridRecommendationSystem.ApplyFinalRanking | src/main/java/com/musicrecommendation/ml/HybridRecommendationSystem.java:469-483 | the scores after context weighting and exploration are as WeightAndExplore states, and on success the result is the best 50 of the rescored list by descending score, none left out scoring higher; nothing on failure |
| HybridRecommendationSystem.GeneratedKind | src/main/java/com/musicrecommendation/ml/HybridRecommendationSystem.java:69-74 | a request never yields HYBRID-typed recommendations; other requests keep their type |
| HybridRecommendationSystem.Generate | src/main/java/com/musicrecommendation/ml/HybridRecommendationSystem.java:69-74 | the selected generator's pool has the tracks and the scores it defines (PoolTracks, PoolScored with that generator's base score, weight 0.2/0.8/1.0/0.3 and target none/0.6/0.8/0.4), and the generated list is its best 50 by descending score, of the generated type |
| HybridRecommendationSystem.GenerateAndRank | src/main/java/com/musicrecommendation/ml/HybridRecommendationSystem.java:69-80 | generation as Generate states, then the final ranking of its best 50 as ApplyFinalRanking states |
| HybridRecommendationSystem.GenerateCut | src/main/java/com/musicrecommendation/ml/HybridRecommendationSystem.java:69-74 | the generated list is the cut of the generator's pool: each recommendation carries the score it had at the cut |
| HybridRecommendationSystem.RankCut | src/main/java/com/musicrecommendation/ml/HybridRecommendationSystem.java:77 | the final ranking of a generated list: its scores become as FinalScored says and on success the result is the best 50 of the rescored list |
| HybridRecommendationSystem.TopOfScores | src/main/java/com/musicrecommendation/ml/HybridRecommendationSystem.java:120-123 | a best-50 list has at most 50 entries, is sorted by score and is drawn from the list |
| HybridRecommendationSystem.CutScores | src/main/java/com/musicrecommendation/ml/HybridRecommendationSystem.java:120-123 | the cut of a sorted snapshot lists the recommendations with the scores they then carry |
| HybridRecommendationSystem.GenerateRecommendations | src/main/java/com/musicrecommendation/ml/HybridRecommendationSystem.java:51-81 | the unliked candidates go to the selected generator, whose pool and scores are as Generate states; its best 50 are rescored as ApplyFinalRanking states and the result is their best 50 by descending score; failure only from an unrated interaction or exploration without full context, and then nothing |
| ExplorationEngine.ProfileOf | src/main/java/com/musicrecommendation/ml/exploration/ExplorationEngine.java:202-247 | the preference view the scores read carries exactly the user's exploration, novelty and diversity preferences and preferred artists and genres |
| ExplorationEngine.BaseExplorationScore | src/main/java/com/musicrecommendation/ml/exploration/ExplorationEngine.java:173-197 | with in-range track data the base score lies in [0, 1.2] |
| ExplorationEngine.BaseExplorationScorePopularityAntitone | src/main/java/com/musicrecommendation/ml/exploration/ExplorationEngine.java:181-184 | a less popular track never has a lower base score |
| ExplorationEngine.ExplorationAlignment | src/main/java/com/musicrecommendation/ml/exploration/ExplorationEngine.java:202-221 | with preferences in [0, 1] the alignment lies in [0, 0.8] |
| ExplorationEngine.NoveltyFactor | src/main/java/com/musicrecommendation/ml/exploration/ExplorationEngine.java:226-247 | with novelty in [0, 1] the factor lies in [0, 1] |
| ExplorationEngine.NoveltyFactorPreferring | src/main/java/com/musicrecommendation/ml/exploration/ExplorationEngine.java:234-244 | preferring the track's artist removes exactly the 0.3 artist bonus, preferring its genre the 0.3 genre bonus; a track without genre gets no genre bonus |
| ExplorationEngine.DiversityFactor | src/main/java/com/musicrecommendation/ml/exploration/ExplorationEngine.java:252-271 | with diversity in [0, 1] the factor lies in [0, 1]; an independent artist always gets at least 0.3 plus the weighted diversity |
| ExplorationEngine.ExplorationScore | src/main/java/com/musicrecommendation/ml/exploration/ExplorationEngine.java:31-47 | the score never exceeds 1, is either 1 or the sum of the four parts, and is non-negative for in-range data |
| ExplorationEngine.ExplorationScoreCap | src/main/java/com/musicrecommendation/ml/exploration/ExplorationEngine.java:46 | the cap 1 is reached iff the parts sum to at least 1; below that the score is the sum |
| ExplorationEngine.MoodExplorationBonus | src/main/java/com/musicrecommendation/ml/exploration/ExplorationEngine.java:276-340 | the mood bonus lies in [0, 0.3] and is 0 for NEUTRAL |
| ExplorationEngine.ActivityExplorationBonus | src/main/java/com/musicrecommendation/ml/exploration/ExplorationEngine.java:345-400 | the activity bonus lies in [0, 0.3] and is 0 for GENERAL |
| ExplorationEngine.TimeExplorationBonus | src/main/java/com/musicrecommendation/ml/exploration/ExplorationEngine.java:405-440 | the time bonus lies in [0, 0.3] and is exactly 0.1 for DAY |
| ExplorationEngine.ContextualBonus | src/main/java/com/musicrecommendation/ml/exploration/ExplorationEngine.java:147-158 | the per-track contextual bonus lies in [0, 0.9] |
| ExplorationEngine.DefaultContextBonus | src/main/java/com/musicrecommendation/ml/exploration/ExplorationEngine.java:147-164 | under the default context (NEUTRAL, GENERAL, DAY) every track gains exactly 0.1, which does not rewrite the explanation |
| ExplorationEngine.EpsilonBoostNeverLower | src/main/java/com/musicrecommendation/ml/exploration/ExplorationEngine.java:89 | a boost by a factor in [1, 1.3) never lowers a non-negative score |
| ExplorationEngine.ApplyEpsilonGreedy | src/main/java/com/musicrecommendation/ml/exploration/ExplorationEngine.java:74-95 | above epsilon nothing changes; below it the first min(5, n) of the shuffle get the boost and the exploration explanation, and all others stay untouched |
| ExplorationEngine.ThompsonPrior | src/main/java/com/musicrecommendation/ml/exploration/ExplorationEngine.java:105-118 | with in-range data both Beta parameters are at least 1; with a popularity and no novelty they sum to 4 |
| ExplorationEngine.ThompsonBonus | src/main/java/com/musicrecommendation/ml/exploration/ExplorationEngine.java:125 | a sample in [0, 1] gives a bonus in [0, 0.4] |
| ExplorationEngine.ApplyThompsonSampling | src/main/java/com/musicrecommendation/ml/exploration/ExplorationEngine.java:100-134 | every score gains its sample's bonus (so rises by at most 0.4), and the explanation changes exactly when the bonus exceeds 0.2 |
| ExplorationEngine.ApplyContextualExploration | src/main/java/com/musicrecommendation/ml/exploration/ExplorationEngine.java:139-168 | with a full context every score gains its contextual bonus and the explanation changes exactly when it exceeds 0.1; a missing context part makes a non-empty list fail untouched |
| ExplorationEngine.ApplyExploration | src/main/java/com/musicrecommendation/ml/exploration/ExplorationEngine.java:52-69 | the same list comes back; the scores and explanations become those of the epsilon-greedy pass, then the Thompson pass, then the contextual pass, as Explored states; the call fails exactly when a non-empty list meets an incomplete context; no non-negative score goes down |
| ExplorationEngine.EpsilonStage | src/main/java/com/musicrecommendation/ml/exploration/ExplorationEngine.java:74-95 | the epsilon-greedy pass stated on the score and explanation lists as EpsilonExplored says |
| ExplorationEngine.ThompsonStage | src/main/java/com/musicrecommendation/ml/exploration/ExplorationEngine.java:100-134 | the Thompson pass stated on the score and explanation lists as ThompsonApplied says |
| ExplorationEngine.ContextStage | src/main/java/com/musicrecommendation/ml/exploration/ExplorationEngine.java:139-168 | the contextual pass stated on the score and explanation lists; it fails exactly on an incomplete context |
| ExplorationEngine.BonusStage | src/main/java/com/musicrecommendation/ml/exploration/ExplorationEngine.java:62-65 | the Thompson then the contextual pass, composed |
| ExplorationEngine.ExplorationScoreOrNull | src/main/java/com/musicrecommendation/ml/exploration/ExplorationEngine.java:31-47 | scoring succeeds iff a user is given, and then yields the exploration score |
| ExplorationEngine.ExplorationScoresOrNull | src/main/java/com/musicrecommendation/ml/exploration/ExplorationEngine.java:453-456 | a successful pass yields one score per track |
| ExplorationEngine.ExplorationStatsAsWrittenFails | src/main/java/com/musicrecommendation/ml/exploration/ExplorationEngine.java:445-481 | as written the statistics are empty for an empty list and fail for any non-empty list, because no user is passed to the score |
| ExplorationEngine.ExplorationScoresFailWithoutUser | src/main/java/com/musicrecommendation/ml/exploration/ExplorationEngine.java:453-456 | scoring a non-empty list without a user always fails |
| ExplorationEngine.ExplorationScores | src/main/java/com/musicrecommendation/ml/exploration/ExplorationEngine.java:453-456 | one exploration score per track, for the given user |
| ExplorationEngine.ExplorationScoresWithUser | src/main/java/com/musicrecommendation/ml/exploration/ExplorationEngine.java:453-456 | with a user the score pass never fails and yields exactly the per-track scores |
| ExplorationEngine.StatsWithAverage | src/main/java/com/musicrecommendation/ml/exploration/ExplorationEngine.java:459-478 | the novelty, independent and low-popularity ratios lie in [0, 1], and the average is the one given |
| ExplorationEngine.ExplorationStatsFor | src/main/java/com/musicrecommendation/ml/exploration/ExplorationEngine.java:445-481 | corrected statistics: none iff the list is empty; otherwise an average at most 1 (non-negative for in-range data) and three ratios in [0, 1] |
| ExplorationEngine.ExplorationStatsWithUser | src/main/java/com/musicrecommendation/ml/exploration/ExplorationEngine.java:445-481 | supplying the user makes the statistics exactly the corrected ones |
| Models.Ids | src/ml/models.py:265-276 | the ids a tuple list names: every tuple's id, and nothing else |
| Models.ContributionAbsent | src/ml/models.py:265-276 | an item no tuple names receives nothing from a source loop |
| Models.Add | src/ml/models.py:182-187 | `d[id] = d.get(id, 0) + x` raises the item's total by x, leaves every other total alone, and adds a key only for a new item |
| Models.Items | src/ml/models.py:190-191 | `items()` yields one (key, value) tuple per key, in insertion order |
| Models.ItemsOf | src/ml/models.py:190-191 | the tuples of a dict name each key exactly once, with its value, and nothing else |
| Models.AddPairs | src/ml/models.py:265-276 | the accumulation loop keeps the dict well formed (distinct keys) |
| Models.AddPairsKeys | src/ml/models.py:182-187 | after the loop an item has a key iff it had one or some non-skipped tuple names it |
| Models.AddPairsTotal | src/ml/models.py:182-187 | after the loop a non-skipped item holds its old value plus its weighted scores; a skipped item is unchanged |
| Models.AddAll | src/ml/models.py:182-187 | the imperative accumulation loop computes exactly the dict the specification function describes |
| Models.TopItemsSpec | src/ml/models.py:411-422 | the popularity cut returns the n most popular items (Python slice semantics for negative n), most popular first, distinct, each with its popularity |
| Models.TopItemsDominate | src/ml/models.py:411-422 | no item left out of the popularity cut is more popular than one returned |
| Models.CollaborativeScoresSpec | src/ml/models.py:323-333 | the collaborative source keeps the k best predictions, best first, and no omitted prediction scores higher |
| Models.IndexOf | src/ml/models.py:146-151 | the item's row is the first one naming it; none when the id is unknown |
| Models.Ranking | src/ml/models.py:157 | argsort reversed is a permutation of the columns, most similar first |
| Models.RankingColumns | src/ml/models.py:157 | the ranking lists every column exactly once |
| Models.PairsAt | src/ml/models.py:159-163 | each picked column becomes the tuple (item id, similarity) of that column, in ranking order |
| Models.GetSimilarItemsSpec | src/ml/models.py:140-168 | [] for an unfitted model or an unknown id; otherwise at most n tuples of known items, most similar first |
| Models.GetSimilarItemsTop | src/ml/models.py:154-165 | for a known item, min(n, row length − 1) tuples, never the top-ranked column, and no skipped column more similar than a returned one |
| Models.Accumulated | src/ml/models.py:177-187 | the dict of summed similarities stays well formed as liked items are processed |
| Models.AccumulatedKeys | src/ml/models.py:179-187 | an item gets a key iff it is not liked and some liked item's similar list names it |
| Models.AccumulatedTotal | src/ml/models.py:179-187 | a non-liked item holds the sum of the similarities the liked items' lists give it |
| Models.RecommendForUser | src/ml/models.py:170-199 | the nested loops then sort and cut compute exactly the specification of `recommend_for_user` |
| Models.ForUserSpec | src/ml/models.py:170-199 | [] for no liked items; never a liked item; at most n distinct items, by descending summed similarity |
| Models.ForUserDominates | src/ml/models.py:189-196 | no candidate left out of `recommend_for_user` has a higher summed similarity than one returned |
| Models.NewHybrid | src/ml/models.py:204-220 | omitted weights default to collaborative 0.4, content 0.3, popularity 0.1, diversity 0.2; given weights are kept; no diversity injector yet |
| Models.AddSource | src/ml/models.py:265-276 | a source loop keeps the dict well formed, or fails with KeyError |
| Models.AddSourceAll | src/ml/models.py:265-276 | the imperative source loop matches its specification, failing at the first tuple when the weight is missing |
| Models.AddSourceSpec | src/ml/models.py:265-276 | a successful source loop adds a key for each named item and the item's weighted scores to its total |
| Models.Merged | src/ml/models.py:260-276 | the three source loops leave a well-formed dict or fail |
| Models.MergeSources | src/ml/models.py:260-276 | the imperative source loops compute the merged dict of the specification |
| Models.MergedNone | src/ml/models.py:262-276 | the merge fails exactly when a loop that runs needs a weight the dict lacks |
| Models.MergedSpec | src/ml/models.py:260-276 | after merging, an item has a key iff some source names it and holds the weighted sum of its source scores |
| Models.Boost | src/ml/models.py:279-283 | the diversity loop keeps the dict well formed |
| Models.BoostKeys | src/ml/models.py:279-283 | boosting adds no key and reorders none |
| Models.BoostTotal | src/ml/models.py:281-283 | each scored key gains `div_score * diversity_boost` once; other keys keep their value |
| Models.BoostAll | src/ml/models.py:281-283 | the imperative diversity loop matches its specification |
| Models.Diversified | src/ml/models.py:279-283 | the diversity step, which runs only for a positive boost and a set injector, keeps the dict well formed |
| Models.DiversifiedSpec | src/ml/models.py:279-283 | the diversity step keeps the keys and adds the boosted injector score to each key the injector scored |
| Models.Final | src/ml/models.py:260-283 | the dict `recommend` sorts is well formed whenever it exists |
| Models.FinalSpec | src/ml/models.py:260-283 | the sorted dict exists iff no needed weight is missing; its keys are the named items, each holding its hybrid score |
| Models.Recommend | src/ml/models.py:256-303 | the imperative `recommend` returns exactly the specified list, the dict at position i stamped with the i-th clock read of the output loop |
| Models.RecommendShape | src/ml/models.py:256-303 | [] when a needed weight is missing (exception path); otherwise at most n dicts with distinct item ids, by descending score, each stamped with the clock read made for its position |
| Models.RecommendMember | src/ml/models.py:285-300 | every returned dict names an item some source named, carries its hybrid score and the timestamp of one of the output loop's clock reads |
| Models.RecommendDominates | src/ml/models.py:285-300 | no named item left out has a higher hybrid score than a returned one |
| ExplorationStrategy.DefaultExplorer | src/ml/models.py:427-430 | the default strategy is epsilon-greedy with epsilon 0.1 |
| ExplorationStrategy.Picked | src/ml/models.py:462-466 | the drawn candidates, one per drawn index, in draw order |
| ExplorationStrategy.EpsilonGreedySpec | src/ml/models.py:445-469 | the result starts with the first `len - int(len * epsilon)` recommendations (a Python slice), followed, when exploring, by as many drawn pool dicts as the sample size, none of them recommended |
| ExplorationStrategy.EpsilonGreedyNoExploration | src/ml/models.py:447-454 | a non-positive epsilon never explores and keeps the list as it is |
| ExplorationStrategy.EpsilonGreedyLength | src/ml/models.py:445-469 | with epsilon in [0,1] the result is never longer than the recommendations |
| ExplorationStrategy.EpsilonGreedyDistinct | src/ml/models.py:445-469 | without repeated dicts in the recommendations and the pool, the result repeats no dict either |
| ExplorationStrategy.CandidatesDistinct | src/ml/models.py:456-459 | the exploration candidates of a pool without repeats have no repeats |
| ExplorationStrategy.LastIndex | src/ml/models.py:477-479 | the last position of a dict in the list, whose write survives |
| ExplorationStrategy.LastIndexSnoc | src/ml/models.py:477-479 | appending a dict makes it its own last occurrence and moves no other |
| ExplorationStrategy.WithExploration | src/ml/models.py:479 | the exploration score is the score plus the noise, and id, score and flags are unchanged |
| ExplorationStrategy.AddNoise | src/ml/models.py:477-479 | each dict gets its score plus the noise drawn at its last position as exploration score, and nothing else changes |
| ExplorationStrategy.ThompsonSampling | src/ml/models.py:471-484 | after the noise loop the list is a permutation of the same dicts sorted stably by exploration score, largest first |
| ExplorationStrategy.ApplyExploration | src/ml/models.py:432-443 | epsilon-greedy returns its result without writing any dict, Thompson sampling perturbs and re-sorts, and an unknown strategy returns the list unchanged |
| RecDicts.SortRecs | src/ml/debiasing.py:607 | sorting a list of dicts in place keeps the same dicts and lists their contents in the stable descending order of the key |
| RecDicts.RecDict.constructor | src/ml/debiasing.py:325 | a new dict holds exactly the given contents, as a literal or `candidate.copy()` does |
| RecDicts.SortedEntries | src/ml/debiasing.py:607 | sorting the (dict, contents) pairs keeps the dicts and orders the contents stably by key |
| RecDicts.NewDicts | src/ml/models.py:480-484 | one new dict per value, holding it, in order |
| TrackMetadata.InfoOf | src/ml/debiasing.py:48 | an id missing from the metadata reads as the empty record |
| Helpers.NormalizeAudioFeatures | src/utils/helpers.py:104-131 | every normalised value lies in [0,1] |
| Helpers.NormalizeKeys | src/utils/helpers.py:104-131 | a normalised key exists exactly for a direct feature, tempo or loudness the input has, or `duration` when it has `duration_ms`, and holds the clamped, linearly scaled value |
| Helpers.ScaledNotDirect | src/utils/helpers.py:109-110 | tempo, loudness and duration are not among the features copied directly |
| Helpers.NormalizeMonotone | src/utils/helpers.py:112-124 | a larger raw value never gives a smaller normalised one |
| Helpers.NormalizeRangeEnds | src/utils/helpers.py:116-124 | 60 and 200 BPM map to 0 and 1, -60 and 0 dB map to 0 and 1 |
| Helpers.AccumulateAgreement | src/utils/helpers.py:149-156 | the loop's two accumulators are the weighted agreement and the weight shared by both feature vectors |
| Helpers.CalculateAudioSimilarity | src/utils/helpers.py:134-158 | returns the agreement divided by the shared weight, 0 when no weight is shared, with the default weights when none are given |
| Helpers.SumsSymmetric | src/utils/helpers.py:152-156 | both accumulated sums are unchanged when the two vectors are swapped |
| Helpers.AudioSimilaritySymmetric | src/utils/helpers.py:134-158 | the similarity does not depend on the order of the two tracks |
| Helpers.AgreementBounds | src/utils/helpers.py:152-156 | with non-negative weights the agreement lies between 0 and the shared weight |
| Helpers.AudioSimilarityBounds | src/utils/helpers.py:134-158 | with non-negative weights the similarity lies in [0,1] |
| Helpers.SelfAgreement | src/utils/helpers.py:152-156 | against itself every shared feature agrees fully |
| Helpers.AudioSimilaritySelf | src/utils/helpers.py:134-158 | a track is fully similar (1) to itself once some weight is shared |
| Helpers.CalculateDiversityScore | src/utils/helpers.py:180-198 | the collecting loop's result is the distinct values per item, capped at 1, and 0 for no items |
| Helpers.DiversityScoreSpec | src/utils/helpers.py:180-198 | the score lies in [0,1]; it is 1 exactly when there are at least as many distinct values as items, 0 exactly when there are no items or no values |
| Helpers.CountRatio | src/utils/helpers.py:195-198 | `min(1, u / n)` lies in [0,1], is 1 exactly when u >= n and 0 exactly when u = 0 |
| Helpers.CalculateNoveltyScore | src/utils/helpers.py:201-215 | the collecting loop's result is 1 minus the mean popularity over 100 (50 when missing), clamped to [0,1], and 0 for no items |
| Helpers.NoveltyAntitone | src/utils/helpers.py:201-215 | making every item at least as popular never raises the novelty |
| Helpers.NoveltyAllUnknown | src/utils/helpers.py:208-215 | items without any popularity count as medium and give novelty 0.5 |
| Helpers.FormatDurationRoundTrip | src/utils/helpers.py:226-240 | for a non-negative duration the text has an hour field exactly from one hour on, and reads back as the whole seconds |
| Helpers.ShortClockRoundTrip | src/utils/helpers.py:240 | `M:SS` has two fields and reads back as 60 M + SS |
| Helpers.LongClockRoundTrip | src/utils/helpers.py:236-238 | `H:MM:SS` has three fields and reads back as 3600 H + 60 MM + SS |
| Helpers.Repeat | src/utils/helpers.py:249-252 | a string repeated n times has max(n, 0) copies of the character and nothing else |
| Helpers.StarRatingSpec | src/utils/helpers.py:243-254 | for a rating between 0 and the maximum there are exactly `max_rating` stars, the full ones being the rating rounded half up and the rest empty |
| Helpers.SanitizeUserInput | src/utils/helpers.py:408-422 | a non-string gives ""; the result holds none of `<>"'`, is no longer than a non-negative `max_length` and has no surrounding whitespace |
| Helpers.SanitizeParts | src/utils/helpers.py:413-420 | removing, slicing and stripping in that order leaves no harmful character, respects the length and leaves no outer whitespace |
| Helpers.StripEnds | src/utils/helpers.py:420 | a stripped text has no whitespace at either end |
| Helpers.StripStripped | src/utils/helpers.py:420 | stripping a text without outer whitespace leaves it unchanged |
| Helpers.SanitizeIdempotent | src/utils/helpers.py:408-422 | sanitising an already sanitised text changes nothing |
| Helpers.BatchProcess | src/utils/helpers.py:428-440 | without a function the items come back as they are; a batch size of 0 raises; a negative one gives []; a positive one concatenates the function's results on consecutive slices |
| Helpers.BatchLoop | src/utils/helpers.py:434-440 | the loop over `range(0, len, size)` concatenates the results of consecutive slices |
| Helpers.BatchedStep | src/utils/helpers.py:435-438 | one step takes the next slice of at most `batch_size` items off the front |
| Helpers.BatchedTransparent | src/utils/helpers.py:428-440 | a function that distributes over concatenation gives the same result batched or applied once to all items |
| Helpers.BatchedIdentity | src/utils/helpers.py:428-440 | batching with the identity gives the items back, so the slices partition the input |
| Evaluation.Popularities | src/ml/evaluation.py:257-261 | one popularity per recommendation, in order, 0 when the metadata lacks it |
| Evaluation.F1Bounds | src/ml/evaluation.py:80 | for precision and recall in [0, 1] the F1 score lies in [0, 1] and is 1 exactly when both are 1 |
| Evaluation.AccuracyOf | src/ml/evaluation.py:64-68 | the all-zero result is returned exactly when there is no ground truth |
| Evaluation.AccuracyInUnit | src/ml/evaluation.py:70-93 | precision, recall and F1 lie in [0, 1], true positives bound by both counts; recommending exactly the ground-truth ids scores 1 on all three |
| Evaluation.Relevance | src/ml/evaluation.py:102 | the relevance map has a key exactly for each ground-truth id |
| Evaluation.Dedup | src/ml/evaluation.py:71-72 | the distinct elements, each once, and no other |
| Evaluation.RankedRelevances | src/ml/evaluation.py:106-107 | the relevance of each of the first k recommendations, 0 outside the ground truth |
| Evaluation.DcgNonNeg | src/ml/evaluation.py:105-109 | the DCG is never negative |
| Evaluation.DcgPositive | src/ml/evaluation.py:105-113 | with positive relevances DCG equals the ideal DCG, positive for a non-empty list |
| Evaluation.DcgIgnoresTail | src/ml/evaluation.py:108-109 | positions without positive relevance add nothing |
| Evaluation.NdcgNonNeg | src/ml/evaluation.py:98-121 | NDCG is never negative, and 0 without ground truth |
| Evaluation.NdcgPerfect | src/ml/evaluation.py:98-121 | a ranking whose first k relevances are the ideal ones scores exactly 1 |
| Evaluation.IdealPositive | src/ml/evaluation.py:112 | the ideal relevances of a non-empty ground truth are non-empty, and positive when every relevance is |
| Evaluation.CalculateNdcg | src/ml/evaluation.py:98-121 | the DCG loop and ideal DCG give exactly the NDCG of the specification |
| Evaluation.DcgSnoc | src/ml/evaluation.py:106-109 | one more position adds its gain when its relevance is positive |
| Evaluation.CalculateAccuracyMetrics | src/ml/evaluation.py:64-96 | the metrics are those of the specification with NDCG@10; no ground truth gives the zero result; NDCG is non-negative |
| Evaluation.SortAsc | src/ml/evaluation.py:551 | sorted ascending and a permutation of the input |
| Evaluation.GiniAsWrittenOnEvenCounts | src/ml/evaluation.py:544-558 | as written, equal counts give a negative coefficient (−1.4375 for four counts of 1) where the corrected one gives 0 |
| Evaluation.GiniEven | src/ml/evaluation.py:544-558 | the corrected coefficient of an even positive spread is 0 |
| Evaluation.GiniBounds | src/ml/evaluation.py:544-558 | for non-negative values the corrected coefficient lies in [0, (n − 1)/n] |
| Evaluation.RankWeightedAscending | src/ml/evaluation.py:556 | rank weights falling as values rise bound the weighted sum by half of (n + 1) times the total |
| Evaluation.MinOf | src/ml/evaluation.py:269 | the minimum is a value of the list and bounds it from below |
| Evaluation.MaxOf | src/ml/evaluation.py:270 | the maximum is a value of the list and bounds it from above |
| Evaluation.SpreadBounds | src/ml/evaluation.py:266-273 | min and max are values bounding the list; the mean lies between them; the range is max − min ≥ 0 |
| Evaluation.PopularityDiversityOf | src/ml/evaluation.py:263-264 | no popularity statistics exactly for an empty list |
| Evaluation.PopularityDiversityBounds | src/ml/evaluation.py:278-284 | niche (< 30) and mainstream (> 70) shares are disjoint proportions summing to at most 1 |
| Evaluation.ReleaseYears | src/ml/evaluation.py:300-349 | the readable release years, never more than the recommendations |
| Evaluation.TemporalDiversityOf | src/ml/evaluation.py:300-349 | no temporal statistics exactly when no release year can be read |
| Evaluation.TemporalDiversityBounds | src/ml/evaluation.py:300-349 | recent and vintage shares are disjoint proportions of the dated recommendations; the year spread is ordered |
| Evaluation.Artists | src/ml/evaluation.py:228-232 | one artist per recommendation, "Unknown" when missing |
| Evaluation.Counts | src/ml/evaluation.py:241-242 | one count per distinct artist |
| Evaluation.ArtistDiversityBounds | src/ml/evaluation.py:225-252 | the diversity ratio lies in [0, 1] and is 1 exactly for a non-empty list with no repeated artist; the concentration lies in [0, 1) |
| Evaluation.ArtistConcentrationAsWritten | src/ml/evaluation.py:544-558 | for two or more recommendations by different artists the source's concentration formula is negative, -1.4375 for four, where the coefficient the model composes is 0 |
| Evaluation.NoveltyBounds | src/ml/evaluation.py:351-404 | with popularities on 0..100 and no future release, popularity, release and combined novelty lie in [0, 1] |
| Evaluation.TierCountsTotal | src/ml/evaluation.py:427-438 | every recommendation falls in exactly one popularity tier |
| Evaluation.TierFractionsSum | src/ml/evaluation.py:440-444 | tier shares of a non-empty list are proportions summing to 1; all 0 without recommendations |
| Evaluation.PopularityTierCoverage | src/ml/evaluation.py:424-444 | the tier-counting loop yields exactly the specified shares |
| Evaluation.RecommendedGenresCovered | src/ml/evaluation.py:409-420 | the recommended genres are among the metadata's genres |
| Evaluation.CoverageBounds | src/ml/evaluation.py:406-454 | genre coverage lies in [0, 1] and is 1 exactly when the metadata has genres and the recommendations reach all of them |
| Evaluation.BiasBounds | src/ml/evaluation.py:456-499 | with popularities on 0..100 every bias score lies in [0, 1], the concentrations in [0, 1) |
| Evaluation.GenreOverlapInUnit | src/ml/evaluation.py:516 | the Jaccard genre overlap lies in [0, 1] |
| Evaluation.SerendipityBounds | src/ml/evaluation.py:511-532 | with popularities on 0..100 a track's serendipity lies in [0, 0.5] |
| Evaluation.QualityScoreMonotone | src/ml/evaluation.py:563-607 | the quality score lies in [0, 1], never falls when a component improves or the bias shrinks, and is 0.9 for perfect components without bias |
| Evaluation.EvaluationOf | src/ml/evaluation.py:18-62 | the overall quality of every evaluation lies in [0, 1] |
| Evaluation.SummaryOf | src/ml/evaluation.py:630-638 | the summary counts exactly the evaluations it averages |
| Evaluation.RecentWindow | src/ml/evaluation.py:615 | `history[-n:]` is the last n entries for positive n and the whole history for 0 |
| Evaluation.RecommendationEvaluator.constructor | src/ml/evaluation.py:14-16 | a new evaluator has an empty history |
| Evaluation.RecommendationEvaluator.EvaluateRecommendations | src/ml/evaluation.py:18-62 | the result is the specified evaluation, and it is appended to the history, which stays otherwise unchanged |
| Evaluation.RecommendationEvaluator.Store | src/ml/evaluation.py:57 | the evaluation is appended to the history |
| Evaluation.RecommendationEvaluator.GetEvaluationSummary | src/ml/evaluation.py:609-643 | nothing iff the history is empty; otherwise the count of the window, the last entry as latest, and an average quality in [0, 1] |
| Evaluation.SummaryWindow | src/ml/evaluation.py:615-637 | the window of a non-empty history has min(n, size) entries, its latest the last one, and an average quality in [0, 1] when every stored quality is |
| Playlist.IsSystemRecommendation | src/main/java/com/musicrecommendation/model/UserPlaylist.java:368-373 | a playlist is a system recommendation exactly when its type is not USER_CREATED |
| Playlist.RemoveFirst | src/main/java/com/musicrecommendation/model/UserPlaylist.java:280-285 | removing drops exactly one element when an equal track is present, and changes nothing otherwise |
| Playlist.RemoveFirstSpec | src/main/java/com/musicrecommendation/model/UserPlaylist.java:280-285 | exactly the first equal track goes; the others keep their order |
| Playlist.RemoveFirstNoRepeats | src/main/java/com/musicrecommendation/model/UserPlaylist.java:280-285 | removal keeps a list free of repeated tracks and leaves no track equal to the removed one |
| Playlist.AddAllSpec | src/main/java/com/musicrecommendation/model/UserPlaylist.java:290-298 | the old list stays a prefix, every argument track is present afterwards, nothing else is added, and a repeat-free list stays repeat-free even when the argument repeats a track |
| Playlist.ListOperationsKeepNoRepeats | src/main/java/com/musicrecommendation/model/UserPlaylist.java:269-307 | adding, removing and bulk-adding keep a repeat-free playlist repeat-free |
| Playlist.DiversityScoreRange | src/main/java/com/musicrecommendation/model/UserPlaylist.java:328-349 | the diversity score is 0 for an empty playlist and otherwise lies in (0, 1] |
| Playlist.PlaylistNovelty | src/main/java/com/musicrecommendation/model/UserPlaylist.java:354-363 | the novelty is 0 for an empty playlist and lies in [0, 1] when every track's novelty does |
| Playlist.FormattedDurationSpec | src/main/java/com/musicrecommendation/model/UserPlaylist.java:378-393 | for a positive duration the printed fields are its hours, minutes and seconds (minutes and seconds below 60 and two digits wide), with the hour field only when there are hours |
| Playlist.FormattedDurationZero | src/main/java/com/musicrecommendation/model/UserPlaylist.java:379-381 | a null or zero duration prints "0:00" |
| Playlist.UserPlaylist.constructor | src/main/java/com/musicrecommendation/model/UserPlaylist.java:115-118 | a new playlist has the given name and type, no tracks and consistent caches |
| Playlist.UserPlaylist.RefreshCaches | src/main/java/com/musicrecommendation/model/UserPlaylist.java:312-323 | the track count and total duration are brought back in step with the list |
| Playlist.UserPlaylist.SetTracks | src/main/java/com/musicrecommendation/model/UserPlaylist.java:213-217 | the list is stored as given and the caches follow it |
| Playlist.UserPlaylist.SetTrackCount | src/main/java/com/musicrecommendation/model/UserPlaylist.java:231-233 | a plain write of the cached count |
| Playlist.UserPlaylist.SetTotalDurationMs | src/main/java/com/musicrecommendation/model/UserPlaylist.java:223-225 | a plain write of the cached duration |
| Playlist.UserPlaylist.AddTrack | src/main/java/com/musicrecommendation/model/UserPlaylist.java:269-275 | an absent track is appended and the caches refreshed; a present one changes nothing |
| Playlist.UserPlaylist.RemoveTrack | src/main/java/com/musicrecommendation/model/UserPlaylist.java:280-285 | reports whether an equal track was present; if so exactly the first one goes and the caches are refreshed, otherwise nothing changes |
| Playlist.UserPlaylist.AddTracks | src/main/java/com/musicrecommendation/model/UserPlaylist.java:290-298 | every absent argument track is appended in order, then the caches are refreshed |
| Playlist.UserPlaylist.ClearTracks | src/main/java/com/musicrecommendation/model/UserPlaylist.java:303-307 | the list is emptied and both caches read 0 |
| Playlist.UserPlaylist.CalculateDiversityScore | src/main/java/com/musicrecommendation/model/UserPlaylist.java:328-349 | a non-empty playlist scores in (0, 1] |
| UserModel.LikedInteractions | src/main/java/com/musicrecommendation/model/User.java:334-339 | the interactions rated 4 or more, in list order and with repeats, as the stream filter keeps them |
| UserModel.SelectedIsFilter | src/main/java/com/musicrecommendation/model/User.java:334-349 | the recursive rating selection equals the stream filter over the rating snapshot, order and repeats kept |
| UserModel.DislikedInteractions | src/main/java/com/musicrecommendation/model/User.java:344-349 | the interactions rated 2 or less, in list order and with repeats, as the stream filter keeps them |
| UserModel.LikedDislikedDisjoint | src/main/java/com/musicrecommendation/model/User.java:334-349 | no interaction is both liked and disliked; a rating of 3 is neither |
| UserModel.RecentlyPlayed | src/main/java/com/musicrecommendation/model/User.java:354-360 | min(limit, n) plays in descending last-played order, a sub-multiset of the user's plays, none left out played later than one kept |
| UserModel.LatestOf | src/main/java/com/musicrecommendation/model/User.java:354-360 | sort by last-played time then `limit`: min(limit, n) plays, descending, a sub-multiset of the plays, none left out later than one kept |
| UserModel.User.constructor | src/main/java/com/musicrecommendation/model/User.java:113-123 | a new user has exploration 0.3, diversity 0.5, novelty 0.4, the NEUTRAL/GENERAL/DAY context, no preferences, no interactions and zeroed counters |
| UserModel.User.SetExplorationLevel | src/main/java/com/musicrecommendation/model/User.java:170-172 | the stored level is the argument clamped into [0, 1] |
| UserModel.User.SetDiversityPreference | src/main/java/com/musicrecommendation/model/User.java:178-180 | the stored preference is the argument clamped into [0, 1] |
| UserModel.User.SetNoveltyPreference | src/main/java/com/musicrecommendation/model/User.java:186-188 | the stored preference is the argument clamped into [0, 1] |
| UserModel.User.SetDiversityScore | src/main/java/com/musicrecommendation/model/User.java:274-276 | the stored score is the argument clamped into [0, 1] |
| UserModel.User.SetExplorationScore | src/main/java/com/musicrecommendation/model/User.java:282-284 | the stored score is the argument clamped into [0, 1] |
| UserModel.User.SetContext | src/main/java/com/musicrecommendation/model/User.java:210-228 | the mood, activity and time of day are stored as given |
| UserModel.User.SetTrackInteractions | src/main/java/com/musicrecommendation/model/User.java:234-236 | the interactions are stored as given |
| UserModel.User.AddPreferredGenre | src/main/java/com/musicrecommendation/model/User.java:320-322 | the genre is added in lower case and nothing else changes |
| UserModel.User.AddPreferredArtist | src/main/java/com/musicrecommendation/model/User.java:327-329 | the artist is added in lower case and nothing else changes |
| UserModel.PreferredNameCaseInsensitive | src/main/java/com/musicrecommendation/model/User.java:320-329 | adding a name that differs only in letter case adds nothing |
| UserModel.User.RecordDiscovery | src/main/java/com/musicrecommendation/model/User.java:384-390 | one more discovered track, one more new artist when flagged, last-active set to now |
| UserModel.User.GetLikedTracks | src/main/java/com/musicrecommendation/model/User.java:334-339 | the tracks of the interactions rated 4 or more, in list order and with repeats; a track is listed iff some such interaction is with it |
| UserModel.User.GetDislikedTracks | src/main/java/com/musicrecommendation/model/User.java:344-349 | the tracks of the interactions rated 2 or less, in list order and with repeats; a track is listed iff some such interaction is with it |
| UserModel.User.GetRecentlyPlayedTracks | src/main/java/com/musicrecommendation/model/User.java:354-360 | fails (IllegalArgumentException) exactly when limit is negative; otherwise min(limit, n) tracks, each the track of the play at the same position of RecentlyPlayed |
| UserModel.UserHashAgreesWithEquals | src/main/java/com/musicrecommendation/model/User.java:393-403 | user equality is an equivalence on Spotify ids and equal users hash alike |
| Interaction.ImplicitRating | src/main/java/com/musicrecommendation/model/UserTrackInteraction.java:253-280 | the implicit rating always lies in [0, 5] |
| Interaction.ImplicitRatingIsClampedTerms | src/main/java/com/musicrecommendation/model/UserTrackInteraction.java:256-279 | it is the play, skip, completion and like terms clamped into [0, 5]; the raw sum lies in [−4, 6], so both clamp ends are reachable |
| Interaction.ImplicitRatingMonotone | src/main/java/com/musicrecommendation/model/UserTrackInteraction.java:256-264 | more plays never lower it and more skips never raise it |
| Interaction.ImplicitRatingLikeOrder | src/main/java/com/musicrecommendation/model/UserTrackInteraction.java:273-277 | disliked ≤ neutral ≤ liked, all else equal |
| Interaction.PositiveNegativeExclusive | src/main/java/com/musicrecommendation/model/UserTrackInteraction.java:292-301 | no interaction is both positive (≥ 3.5) and negative (≤ 2.0); ratings strictly between are neither |
| Interaction.UserTrackInteraction.constructor | src/main/java/com/musicrecommendation/model/UserTrackInteraction.java:85-91 | a new interaction has no rating, zero counts, NEUTRAL status, the first play time set to the first clock read and the last play time to the second |
| Interaction.UserTrackInteraction.SetRating | src/main/java/com/musicrecommendation/model/UserTrackInteraction.java:122-127 | the rating is stored; the rating time becomes now only for a non-null rating |
| Interaction.UserTrackInteraction.SetLikeStatus | src/main/java/com/musicrecommendation/model/UserTrackInteraction.java:149-151 | the like status is stored as given |
| Interaction.UserTrackInteraction.SetCompletionRate | src/main/java/com/musicrecommendation/model/UserTrackInteraction.java:157-159 | the stored rate is the argument clamped into [0, 1] |
| Interaction.UserTrackInteraction.RecordPlay | src/main/java/com/musicrecommendation/model/UserTrackInteraction.java:234-240 | one more play, last played at the first clock read, first played set to the second read only if it was unset |
| Interaction.UserTrackInteraction.RecordSkip | src/main/java/com/musicrecommendation/model/UserTrackInteraction.java:245-248 | one more skip, last played now |
| Interaction.UserTrackInteraction.GetImplicitRating | src/main/java/com/musicrecommendation/model/UserTrackInteraction.java:253-280 | the interaction's implicit rating lies in [0, 5] |
| Interaction.UserTrackInteraction.GetEffectiveRating | src/main/java/com/musicrecommendation/model/UserTrackInteraction.java:285-287 | the explicit rating when present, otherwise an implicit rating in [0, 5] |
| TrackModel.NewTrack | src/main/java/com/musicrecommendation/model/Track.java:113-118 | a new track has the given id, name and artist and every other field null |
| TrackModel.Wrap32 | src/main/java/com/musicrecommendation/model/Track.java:417-419 | Java int arithmetic: a 32-bit value congruent to the exact one |
| TrackModel.HashAgreesWithEquals | src/main/java/com/musicrecommendation/model/Track.java:409-419 | equal tracks (same Spotify id) hash alike |
| TrackModel.SameTrackEquivalence | src/main/java/com/musicrecommendation/model/Track.java:409-414 | track equality is reflexive, symmetric and transitive |
| TrackModel.BiasResistantScore | src/main/java/com/musicrecommendation/model/Track.java:363-388 | the score is the mean of the present factors, 0 when none is present |
| TrackModel.BiasFactorsSum | src/main/java/com/musicrecommendation/model/Track.java:363-388 | the factors are the popularity bias, novelty, diversity and an independent 0.8, each counted only when present |
| TrackModel.BiasResistantScoreInUnit | src/main/java/com/musicrecommendation/model/Track.java:363-388 | the score lies in [0, 1] whenever every present factor does |
| TrackModel.FeatureVector | src/main/java/com/musicrecommendation/model/Track.java:394-406 | the feature vector always has nine entries |
| TrackModel.FeatureVectorInUnitCube | src/main/java/com/musicrecommendation/model/Track.java:394-406 | features within Spotify's documented ranges give a vector inside the unit cube |
| TrackModel.FeatureVectorTempoUnclamped | src/main/java/com/musicrecommendation/model/Track.java:403 | a tempo of 300 BPM gives 1.5: the vector is not clamped |
| Recommendation.OverallScoreBounds | src/main/java/com/musicrecommendation/ml/TrackRecommendation.java:87-89 | with sub-scores in [0, 1] the overall score lies between the score and the score plus 3 |
| Recommendation.DetailedExplanationNoPhrase | src/main/java/com/musicrecommendation/ml/TrackRecommendation.java:94-114 | with no sub-score above its threshold the detailed explanation is the trimmed explanation |
| Recommendation.DetailedExplanationKeepsText | src/main/java/com/musicrecommendation/ml/TrackRecommendation.java:94-114 | a visible-first explanation is kept whole in front of the phrases; only the last phrase's final blank is trimmed |
| Recommendation.DetailedExplanationAllPhrases | src/main/java/com/musicrecommendation/ml/TrackRecommendation.java:94-114 | with no explanation and all sub-scores high, the result is the three phrases without their outer blanks |
| Recommendation.TrackRecommendation.constructor | src/main/java/com/musicrecommendation/ml/TrackRecommendation.java:21-26 | a new recommendation has the given track, score and type, an empty explanation and zero sub-scores |
| Recommendation.TrackRecommendation.WithExplanation | src/main/java/com/musicrecommendation/ml/TrackRecommendation.java:28-33 | a new recommendation has the given track, score, type and explanation and zero sub-scores |
| Recommendation.TrackRecommendation.SetScore | src/main/java/com/musicrecommendation/ml/TrackRecommendation.java:44-46 | the score is stored as given |
| Recommendation.TrackRecommendation.SetExplanation | src/main/java/com/musicrecommendation/ml/TrackRecommendation.java:56-58 | the explanation is stored as given |
| Recommendation.TrackRecommendation.SetDiversityScore | src/main/java/com/musicrecommendation/ml/TrackRecommendation.java:64-66 | the diversity score is stored as given |
| Recommendation.TrackRecommendation.SetNoveltyScore | src/main/java/com/musicrecommendation/ml/TrackRecommendation.java:72-74 | the novelty score is stored as given |
| Recommendation.TrackRecommendation.SetPopularityBiasScore | src/main/java/com/musicrecommendation/ml/TrackRecommendation.java:80-82 | the bias score is stored as given |
| Recommendation.RecommendationHashAgreesWithEquals | src/main/java/com/musicrecommendation/ml/TrackRecommendation.java:117-127 | recommendations of the same track are equal and hash alike |
| TrackSimilarity.YearBandAntitone | src/spotify/data_processor.py:282-294 | the year band never rises as the year difference grows and lies in [0.2, 1] |
| TrackSimilarity.TemporalSpec | src/spotify/data_processor.py:266-294 | the temporal similarity is symmetric, lies in [0.2, 1], is 1 exactly for two dates in the same year, and is the neutral 0.5 when a date is missing |
| TrackSimilarity.PopularitySpec | src/spotify/data_processor.py:253-261 | the popularity similarity is symmetric, lies in [0,1] for popularities in [0,100], and is 1 exactly for equal popularities (missing counting as 0) |
| TrackSimilarity.CalculateAudioSimilarity | src/spotify/data_processor.py:235-248 | the loop's result is the mean of 1 - |difference| over the five features both tracks have, 0 when they share none |
| TrackSimilarity.FeatureSimsSymmetric | src/spotify/data_processor.py:241-246 | the per-feature similarities are the same with the tracks swapped |
| TrackSimilarity.FeatureSimsBounds | src/spotify/data_processor.py:241-246 | for feature values in [0,1] each per-feature similarity lies in [0,1] |
| TrackSimilarity.FeatureSimsSelf | src/spotify/data_processor.py:241-246 | against itself every collected similarity is 1, and none is collected exactly when the track has none of the features |
| TrackSimilarity.AudioSimilaritySpec | src/spotify/data_processor.py:235-248 | the audio similarity is symmetric, lies in [0,1] for feature values in [0,1], and is 0 when the tracks share none of the five features |
| TrackSimilarity.NoSharedFeatures | src/spotify/data_processor.py:241-248 | with no feature shared nothing is collected |
| TrackSimilarity.AudioSimilaritySelf | src/spotify/data_processor.py:235-248 | a track with one of the five features is fully similar to itself |
| TrackSimilarity.SimilaritySymmetric | src/spotify/data_processor.py:201-233 | the total similarity does not depend on the order of the tracks, for any weights |
| TrackSimilarity.MissingWeightKey | src/spotify/data_processor.py:212-233 | a weight dict lacking one of the four keys raises KeyError, caught as 0.0 |
| TrackSimilarity.DefaultSimilarity | src/spotify/data_processor.py:201-230 | with the default weights the total is 0.6 audio + 0.2 popularity + 0.1 temporal + 0.1 artist, and lies in [0,1] for tracks in range |
| TrackSimilarity.DefaultSelfSimilarity | src/spotify/data_processor.py:201-230 | a dated track with one of the five features is fully similar to itself under the default weights |
| SearchPage.ApplySearchFilters | src/ui/pages.py:297-340 | the loop returns exactly the tracks that pass every check, in input order |
| SearchPage.FilteredAppend | src/ui/pages.py:299-340 | filtering distributes over concatenation, so survivors keep their relative order |
| SearchPage.FilteredMembers | src/ui/pages.py:299-340 | there are never more survivors than inputs, and a track survives exactly when it is an input that passes every check |
| SearchPage.FilteredIdempotent | src/ui/pages.py:297-340 | filtering the filtered results again with the same filters changes nothing |
| SearchPage.KeptSpec | src/ui/pages.py:302-336 | a kept track has its popularity (default 0) in range, its year in range when the date parses, energy, danceability and valence (default 0.5) in range when it has features, and shares a genre, ignoring case, when genres are asked for |
| SearchPage.NoDateNoFeaturesKept | src/ui/pages.py:307-336 | with no parsable date, no features and no genre filter only the popularity check can drop a track |
| SearchPage.NicheCapRange | src/ui/pages.py:116 | over niche levels 1 to 5 the popularity cap falls strictly from 25 to 5 |
| Validation.ValidateAudioFeatures | src/utils/helpers.py:343-373 | the validator raises exactly when the feature checks raise; otherwise it returns every check's message, in order, and reports valid exactly when there is none |
| Validation.AudioErrorsDict | src/utils/helpers.py:346-373 | a feature dict never makes the validator raise, and it is valid exactly when the required features are numbers in [0,1], the optional ones present are too, and a tempo present is a number in [0,300] |
| Validation.RequiredAllDict | src/utils/helpers.py:349-355 | on a dict the required-feature loop never raises and finds nothing exactly when each required feature is present, numeric and in [0,1] |
| Validation.OptionalAllDict | src/utils/helpers.py:358-364 | on a dict the optional-feature loop never raises and finds nothing exactly when each optional feature present is numeric and in [0,1] |
| Validation.RequiredAllCount | src/utils/helpers.py:349-355 | each required feature adds at most one message, so the loop yields at most as many messages as features |
| Validation.AudioErrorsScalar | src/utils/helpers.py:350 | a number, or another value that answers neither `in` nor indexing, makes the validator raise |
| Validation.AudioErrorsIndexless | src/utils/helpers.py:349-372 | a string or a list raises exactly when a feature name is in it, and otherwise is rejected with the three missing-feature messages |
| Validation.AudioNonDictFails | src/utils/helpers.py:343-373 | no value other than a dict is ever reported valid |
| Validation.RequiredFails | src/utils/helpers.py:349-355 | once one required-feature check raises, the whole loop raises |
| Validation.ValidateTrackData | src/utils/helpers.py:376-405 | the validator raises exactly when the nested feature validation raises; otherwise it returns the field messages followed by the feature messages, and reports valid exactly when there is none |
| Validation.RequiredFieldsEmpty | src/utils/helpers.py:382-386 | the required-field loop finds nothing exactly when id, name and artist are strings that are not blank after stripping |
| Validation.TrackErrorsSpec | src/utils/helpers.py:376-405 | a track is valid exactly when it passes every check, and the validator raises exactly when the nested audio_features value raises (a number or other value, or a string or list holding a feature name) |
| UiComponents.PlayerDurationRoundTrip | src/ui/components.py:121-128 | for a non-negative duration the text always has exactly two fields, however many minutes, and reads back as the whole seconds |
| UiComponents.PlayerMatchesHelper | src/ui/components.py:121-128 | below one hour the player formats a duration exactly as `UIHelpers.format_duration` does |
| UiComponents.DefaultTimeOfDay | src/ui/components.py:517-530 | the default time of day is always one of the four options, so `.index(default_time)` cannot fail |
| UiComponents.SplitHead | src/ui/components.py:535-537 | the first piece of `split(' ')` is the text up to the first space |
| UiComponents.ParseLabelSpec | src/ui/components.py:535-537 | a parsed label is the lower-cased text before the first space: it holds no space and is no longer than the label |
| UiComponents.OptionKey | src/ui/components.py:535-537 | an option whose first word is followed by a space parses to that word lower-cased |
| UiComponents.TimeOfDayKey | src/ui/components.py:517-537 | the returned time-of-day key is morning from 6 to 11, afternoon from 12 to 16, evening from 17 to 20 and night otherwise |

## Left out

- Randomness: `Math.random()`, `Collections.shuffle`, `BetaDistribution.sample()`, `np.random.choice` and the normal draws are parameters. Their ranges are preconditions; their distributions are not modelled.
- Clock: every read of the clock (`time.time()`, `datetime.now()`, `LocalDateTime.now()`, `LocalTime.now()`) is a parameter; the per-dict reads of `recommend`'s output loop are a function from the dict's position to the value read.
- Transcendental functions: `sqrt`, `log2`, `exp`/the sigmoid, cosine and Pearson's correlation are parameters with the sign and range facts the code relies on. Floating-point rounding and NaN are not modelled, since reals are exact.
- Tie order: numpy's default `argsort` is not a stable sort, so `np.argsort(row)[::-1]` leaves the order of equal similarities unspecified. Models.Ranking states only a permutation of the columns in descending similarity; its body happens to put tied columns in ascending index order, which is one of the orders numpy may give.
- Map iteration: Java `HashMap` iteration order is modelled as first-insertion order. This only decides tie order after a sort.
- Learned models: the neural collaborative filter, the similarity matrix, the popularity scores and the statistics computed by the `fit` methods are inputs. Training, `fit` and model save/load are not modelled.
- Cache key: the md5 cache key of `cached_function` is a plain key given to the model.
- Config loading: reading the environment, the JSON preference files, `setup_logging`, `create_directories` and the `get_*_config` getters are not modelled. The parsed settings are given. Config error messages are modelled as error kinds, not text.
- Logging: all logging is left out; it changes no result.
- Dates: `pd.to_datetime` is modelled as an already-parsed date value.
- Data-processor exceptions: the fallbacks are modelled only as the input cases that reach them. `DataProcessor.extract_genres_from_text` (src/utils/helpers.py:161) is not modelled, and of `src/spotify/data_processor.py` only the track-similarity helpers are.
- Validation: Python booleans are numbers, as in Python. Lists, tuples and sets are one kind of value: `in` is element membership and a string index raises. Tracks that are not dicts reach only the error path.
- Thompson sampling (Python): the caller's list identity is not modelled; the result is the re-sorted list.
- Recommendation dicts: every dict carries an `item_id` and a numeric `score`, as the producers in `src/ml/models.py` always set them. The `except Exception` fallbacks taken for a dict lacking them are not modelled: `debias_scores` returning its input, `inject_diversity`'s fallback, `_apply_bias_corrections`' and `apply_exploration`'s.
- Debiasing.InjectDiversity: the caller's list, which `inject_diversity` sorts in place by ascending score, is returned as the out-parameter `reordered` instead of being updated under the caller.
- Debiasing.InjectDiversity, Debiasing.InjectKnown: the new contents of the caller's own dicts are stated only when the list holds no dict twice; a dict listed twice can be both dropped and kept, and then the dropped position does not keep its old contents.
- TrackModel.StringHash: hashes a sequence of Unicode scalar values. Java's `String.hashCode()` runs over UTF-16 code units, so the two differ for characters outside the Basic Multilingual Plane, which are one scalar value but two code units.
- Evaluation.EvaluationOf, EvaluateRecommendations: an empty user-profile dict is falsy, so `if user_profile:` (src/ml/evaluation.py:44) skips the serendipity metrics for it as for a missing one. The model passes None for both, so `UserProfile` stands only for a non-empty dict.
- Text.Lower: case mapping is the ASCII one. Java `toLowerCase()` and Python `str.lower()` also lower-case non-ASCII letters ("É" to "é"), which the model leaves unchanged; this reaches genre and artist preferences, genre search, label parsing and the mood text.
- ArtistDiversityBounds, BiasBounds, EvaluationOf, EvaluateRecommendations: the artist and genre concentrations are the corrected Gini coefficient, not the value of the source's helper; for four recommendations by four different artists the source reports an artist concentration of -1.4375 where the model reports 0 (Evaluation.ArtistConcentrationAsWritten), and the overall bias differs accordingly.
- Evaluation: not modelled are the standard deviation and coefficient of variation, the genre entropy, the polyfit trend and the cosine intra-list diversity (a parameter).
- `User.getPreferenceProfile`: a map for display only.
- Java framework: JPA annotations, `@PreUpdate`/`@PrePersist` timestamps, the repositories and the web controllers are not modelled.
- Streamlit: the widgets and page layout are not modelled; only the pure pieces named above are.
- HybridRecommendationSystem.Correlation: only the case of fewer than two common items is stated, since the correlation itself is an input.

## Findings

| source | as written | input that shows it | evidently intended | confidence | as-written member | corrected member |
|---|---|---|---|---|---|---|
| src/ml/evaluation.py:544-558 | the Gini helper returns `(n + 1 - 2 * Σ (n + 1 - i) * y_i) / (n * Σ y)` over the ascending values with `i` from 0, mixing a count with a weighted sum of values | four counts of 1 give −1.4375, as do four recommendations by four different artists | the Gini coefficient: 0 for an even spread, within [0, (n − 1)/n] | not executed | Evaluation.GiniAsWrittenOnEvenCounts, Evaluation.ArtistConcentrationAsWritten | Evaluation.GiniBounds |
| src/main/java/com/musicrecommendation/ml/exploration/ExplorationEngine.java:445-481 | `getExplorationStats` scores each recommendation with `calculateExplorationScore(track, null)`, which reads the user's preferences | any non-empty recommendation list throws a `NullPointerException` | statistics computed against the user | not executed | ExplorationEngine.ExplorationStatsAsWrittenFails | ExplorationEngine.ExplorationStatsWithUser |
