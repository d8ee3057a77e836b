// Similar tracks: the widening search that filters out the query's own artist
// (internal/api/vectors.go) and the reranked answer with its fallbacks (internal/api/rerank.go).
module Similar {
  import opened Collections
  import opened Vectors
  import R = Rerank

  const MIN_CANDIDATES := 30
  const CANDIDATES_PER_RESULT := 6
  const MAX_CANDIDATES := 1000
  const RERANK_CANDIDATES_PER_RESULT := 4
  const MIN_RERANK_CANDIDATES := 20

  datatype Found = Found(source: Track, neighbors: seq<Neighbor>) | StoreError

  // A vector database whose answers are prefixes of one fixed ranking. Calls numbered in
  // failing get no answer.
  class Store {
    const source: Track
    const ranking: seq<Neighbor>
    const failing: set<nat>
    var calls: nat

    constructor (source: Track, ranking: seq<Neighbor>, failing: set<nat>)
      ensures this.source == source && this.ranking == ranking && this.failing == failing && calls == 0
    {
      this.source, this.ranking, this.failing, calls := source, ranking, failing, 0;
    }

    method Query(limit: nat) returns (r: Found)
      modifies this
      ensures calls == old(calls) + 1
      ensures r == if old(calls) in failing then StoreError else Found(source, Take(ranking, limit))
    {
      r := if calls in failing then StoreError else Found(source, Take(ranking, limit));
      calls := calls + 1;
    }
  }

  // ---------------------------------------------------------------- what the answer should be

  function ByOther(artist: string): Neighbor -> bool { (n: Neighbor) => n.track.artist != artist }

  function Others(artist: string, found: seq<Neighbor>): seq<Neighbor> { Filter(ByOther(artist), found) }

  // The plain answer: the first limit tracks of the ranking, or the first limit tracks by
  // other artists among its top MAX_CANDIDATES.
  function Plain(source: Track, ranking: seq<Neighbor>, limit: nat, exclude: bool): seq<Neighbor>
  {
    if exclude then Take(Others(source.artist, Take(ranking, MAX_CANDIDATES)), limit) else Take(ranking, limit)
  }

  lemma OthersOfLonger(artist: string, shorter: seq<Neighbor>, longer: seq<Neighbor>, limit: nat)
    requires shorter <= longer && |Others(artist, shorter)| >= limit
    ensures Take(Others(artist, shorter), limit) == Take(Others(artist, longer), limit)
  {
    var rest := longer[|shorter|..];
    assert longer == shorter + rest;
    FilterAppend(ByOther(artist), shorter, rest);
  }

  // The inner loop: it stops at the limit.
  method KeepOthers(found: seq<Neighbor>, artist: string, limit: nat) returns (kept: seq<Neighbor>)
    requires limit >= 1
    ensures kept == Take(Others(artist, found), limit)
  {
    kept := [];
    for i := 0 to |found|
      invariant |kept| < limit && kept == Others(artist, found[..i])
    {
      var n := found[i];
      assert found[..i + 1] == found[..i] + [n];
      FilterAppend(ByOther(artist), found[..i], [n]);
      if n.track.artist != artist {
        kept := kept + [n];
        if |kept| == limit {
          OthersOfLonger(artist, found[..i + 1], found, limit);
          return;
        }
      }
    }
    assert found[..|found|] == found;
  }

  // One or two queries give exactly the plain answer, however few of the first candidates
  // are by other artists.
  method Similar(store: Store, limit: nat, exclude: bool) returns (r: Found)
    requires limit >= 1
    modifies store
    ensures old(store.calls) < store.calls <= old(store.calls) + if exclude then 2 else 1
    ensures r == StoreError <==> exists i :: old(store.calls) <= i < store.calls && i in store.failing
    ensures r.Found? ==> r == Found(store.source, Plain(store.source, store.ranking, limit, exclude))
  {
    if !exclude {
      r := store.Query(limit);
      return;
    }
    var candidates: nat := Min(Max(limit * CANDIDATES_PER_RESULT, MIN_CANDIDATES), MAX_CANDIDATES);
    var widened := false;
    while true
      invariant candidates <= MAX_CANDIDATES && (widened ==> candidates == MAX_CANDIDATES)
      invariant store.calls == old(store.calls) + if widened then 1 else 0
      invariant forall i :: old(store.calls) <= i < store.calls ==> i !in store.failing
      decreases !widened
    {
      var answer := store.Query(candidates);
      if answer.StoreError? {
        return StoreError;
      }
      var source, found := answer.source, answer.neighbors;
      var kept := KeepOthers(found, source.artist, limit);
      if |kept| == limit || |found| < candidates || candidates == MAX_CANDIDATES {
        if |kept| == limit {
          OthersOfLonger(source.artist, found, Take(store.ranking, MAX_CANDIDATES), limit);
        }
        return Found(source, kept);
      }
      candidates := MAX_CANDIDATES;
      widened := true;
    }
  }

  // A wider answer cut to the limit is the plain answer.
  lemma CutOfWider(source: Track, ranking: seq<Neighbor>, limit: nat, wider: nat, exclude: bool)
    requires limit <= wider
    ensures Take(Plain(source, ranking, wider, exclude), limit) == Plain(source, ranking, limit, exclude)
  {
  }

  // Where the tracks of the plain answer stand in the ranking: at growing places of the top
  // 1000, by other artists if asked; and a track by another artist that is not shown stands
  // behind all that are, with the answer full.
  ghost predicate Places(source: Track, ranking: seq<Neighbor>, limit: nat, answer: seq<Neighbor>, at: seq<nat>)
  {
    && |at| == |answer| <= limit
    && (forall k :: 0 <= k < |at| ==>
          && at[k] < |ranking| && at[k] < 1000 && ranking[at[k]] == answer[k]
          && answer[k].track.artist != source.artist)
    && (forall k, l :: 0 <= k < l < |at| ==> at[k] < at[l])
    && (forall i :: 0 <= i < |ranking| && i < 1000 && ranking[i].track.artist != source.artist && i !in at ==>
          |answer| == limit && forall k :: 0 <= k < |at| ==> at[k] < i)
  }

  lemma {:induction false} OthersStand(artist: string, found: seq<Neighbor>) returns (at: seq<nat>)
    ensures |at| == |Others(artist, found)|
    ensures forall k :: 0 <= k < |at| ==>
              at[k] < |found| && found[at[k]] == Others(artist, found)[k] && found[at[k]].track.artist != artist
    ensures forall k, l :: 0 <= k < l < |at| ==> at[k] < at[l]
    ensures forall i :: 0 <= i < |found| && found[i].track.artist != artist ==> i in at
  {
    at := [];
    if found != [] {
      var last := |found| - 1;
      at := OthersStand(artist, found[..last]);
      assert found == found[..last] + [found[last]];
      FilterAppend(ByOther(artist), found[..last], [found[last]]);
      if found[last].track.artist != artist {
        at := at + [last];
        assert at[|at| - 1] == last;
      }
    }
  }

  // What is cut off stands behind what is kept.
  lemma CutStandsBehind(all: seq<nat>, limit: nat, i: nat)
    requires forall k, l :: 0 <= k < l < |all| ==> all[k] < all[l]
    requires i in all && i !in Take(all, limit)
    ensures |Take(all, limit)| == limit && forall k :: 0 <= k < limit ==> all[k] < i
  {
    var l :| 0 <= l < |all| && all[l] == i;
    var kept := Take(all, limit);
    assert forall k :: 0 <= k < |kept| ==> all[k] in kept;
  }

  lemma OthersShown(source: Track, ranking: seq<Neighbor>, limit: nat) returns (at: seq<nat>)
    ensures Places(source, ranking, limit, Plain(source, ranking, limit, true), at)
  {
    var top := Take(ranking, MAX_CANDIDATES);
    var all := OthersStand(source.artist, top);
    at := Take(all, limit);
    hide Others;
    forall i | 0 <= i < |ranking| && i < 1000 && ranking[i].track.artist != source.artist && i !in at
      ensures |at| == limit && forall k :: 0 <= k < |at| ==> at[k] < i
    {
      assert top[i] == ranking[i];
      CutStandsBehind(all, limit, i);
    }
  }

  // Nothing is skipped and nothing else is left out.
  lemma PlainAnswer(source: Track, ranking: seq<Neighbor>, limit: nat, exclude: bool) returns (at: seq<nat>)
    ensures var answer := Plain(source, ranking, limit, exclude);
      if exclude then Places(source, ranking, limit, answer, at)
      else |answer| == Min(limit, |ranking|) && forall k :: 0 <= k < |answer| ==> answer[k] == ranking[k]
  {
    at := [];
    if exclude {
      hide Places;
      at := OthersShown(source, ranking, limit);
    }
  }

  // ---------------------------------------------------------------- rerank=true

  // What became of the statistics: not configured, an answer, or one of the failures the
  // handler tells apart.
  datatype StatsResult = NotConfigured | Stats(stats: R.Stats) | ClientGone | TimedOut | Unavailable

  datatype SkipReason = SkipNotConfigured | SkipTimeout | SkipUnavailable

  datatype Response =
    | Reranked(track: Track, ranked: seq<R.Ranked>)
    | Skipped(track: Track, neighbors: seq<Neighbor>, reason: SkipReason)
    | FailedStore
    | FailedClient

  method SimilarReranked(store: Store, limit: nat, exclude: bool, listeners: StatsResult, cfg: R.Config)
      returns (r: Response)
    requires limit >= 1 && cfg.Valid()
    modifies store
    ensures r == FailedStore <==> exists i :: old(store.calls) <= i < store.calls && i in store.failing
    ensures r == FailedStore || (r == FailedClient <==> listeners == ClientGone)
    ensures r == FailedStore || (r.Reranked? <==> listeners.Stats?)
    // Whenever reranking is skipped the list is exactly the plain answer, with the reason.
    ensures r.Skipped? ==>
      && r.track == store.source
      && r.neighbors == Plain(store.source, store.ranking, limit, exclude)
      && r.reason == (match listeners
                      case NotConfigured => SkipNotConfigured
                      case TimedOut => SkipTimeout
                      case _ => SkipUnavailable)
    ensures r.Reranked? ==>
      && r.track == store.source
      && (var candidates := Plain(store.source, store.ranking,
                                  Max(limit * 4, 20), exclude);
          r.ranked == Take(R.Ranking(candidates, listeners.stats, cfg), limit))
  {
    if listeners == NotConfigured {
      var found := Similar(store, limit, exclude);
      if found.StoreError? {
        return FailedStore;
      }
      return Skipped(found.source, found.neighbors, SkipNotConfigured);
    }
    var candidates := Max(limit * RERANK_CANDIDATES_PER_RESULT, MIN_RERANK_CANDIDATES);
    var found := Similar(store, candidates, exclude);
    if found.StoreError? {
      return FailedStore;
    }
    if !listeners.Stats? {
      if listeners == ClientGone {
        return FailedClient;
      }
      CutOfWider(store.source, store.ranking, limit, candidates, exclude);
      return Skipped(found.source, Take(found.neighbors, limit),
                     if listeners == TimedOut then SkipTimeout else SkipUnavailable);
    }
    var ranked := R.Rerank(found.neighbors, listeners.stats, cfg);
    return Reranked(found.source, Take(ranked, limit));
  }

  // ---------------------------------------------------------------- what reaches the client

  lemma {:induction false} OthersKeepDistinctIds(artist: string, found: seq<Neighbor>)
    requires R.DistinctIds(found)
    ensures R.DistinctIds(Others(artist, found))
  {
    if found != [] {
      var last := |found| - 1;
      OthersKeepDistinctIds(artist, found[..last]);
      FilterMembers(ByOther(artist), found[..last]);
      forall n | n in Others(artist, found[..last]) ensures n.track.trackId != found[last].track.trackId {
        assert n in found[..last];
      }
    }
  }

  lemma CandidatesComeFromTheTop(source: Track, ranking: seq<Neighbor>, wide: nat, exclude: bool, n: Neighbor)
    requires exclude || wide <= MAX_CANDIDATES
    requires n in Plain(source, ranking, wide, exclude)
    ensures exclude ==> n.track.artist != source.artist
    ensures exists i :: 0 <= i < |ranking| && i < MAX_CANDIDATES && ranking[i] == n
  {
    var top := Take(ranking, MAX_CANDIDATES);
    FilterMembers(ByOther(source.artist), top);
    assert n in top;
    var i :| 0 <= i < |top| && top[i] == n;
    assert ranking[i] == n;
  }

  lemma HeadIsOrdered(candidates: seq<Neighbor>, stats: R.Stats, cfg: R.Config, limit: nat)
    requires cfg.Valid() && R.DistinctIds(candidates)
    ensures var head := Take(R.Ranking(candidates, stats, cfg), limit);
      Sorted(R.Better, head) && Distinct(head) && R.ByScore(head)
  {
    var all := R.Ranking(candidates, stats, cfg);
    R.RankingIsTheSortedPermutation(candidates, stats, cfg, all);
    R.ScoredAreOrdered(candidates, stats, cfg);
    DistinctPermutes(R.Scored(candidates, stats, cfg), all);
    R.RankingIsByScore(candidates, stats, cfg);
    hide R.Ranking, R.Better, R.DistinctIds, Orders;
  }

  // A reranked answer only reorders and cuts: no track twice, none by the excluded artist,
  // none outside the ranking's top MAX_CANDIDATES, all of it in the order of the scores.
  lemma RerankedAnswerIsSound(source: Track, ranking: seq<Neighbor>, wide: nat, limit: nat, exclude: bool,
                              stats: R.Stats, cfg: R.Config)
    requires cfg.Valid() && R.DistinctIds(ranking)
    requires exclude || wide <= MAX_CANDIDATES
    ensures var answer := Take(R.Ranking(Plain(source, ranking, wide, exclude), stats, cfg), limit);
      && Sorted(R.Better, answer)
      && Distinct(answer)
      && R.ByScore(answer)
      && forall r :: r in answer ==>
           && (exclude ==> r.track.artist != source.artist)
           && exists i :: 0 <= i < |ranking| && i < MAX_CANDIDATES && ranking[i] == Neighbor(r.track, r.cosine)
  {
    var candidates := Plain(source, ranking, wide, exclude);
    OthersKeepDistinctIds(source.artist, Take(ranking, MAX_CANDIDATES));
    var all := R.Ranking(candidates, stats, cfg);
    HeadIsOrdered(candidates, stats, cfg, limit);
    hide R.Ranking, Sorted, Distinct, R.ByScore;
    forall r | r in Take(all, limit)
      ensures exclude ==> r.track.artist != source.artist
      ensures exists i :: 0 <= i < |ranking| && i < MAX_CANDIDATES && ranking[i] == Neighbor(r.track, r.cosine)
    {
      hide Plain, R.DistinctIds;
      var j := R.AnswersAreScored(candidates, stats, cfg, r);
      assert candidates[j] == Neighbor(r.track, r.cosine);
      CandidatesComeFromTheTop(source, ranking, wide, exclude, candidates[j]);
    }
  }
}
