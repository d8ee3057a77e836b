// Reranking similar tracks by listener behaviour (internal/analytics/rerank.go).
// float64 is modelled by the exact reals, uint64 counters by natural numbers.
module Vectors {
  datatype Track = Track(trackId: int, title: string, artist: string, genre: string, x: real, y: real)
  datatype Neighbor = Neighbor(track: Track, score: real)
}

module Rerank {
  import opened Collections
  import opened Vectors

  const NO_DATA_KEEP_RATE := 0.5
  const MAX_SMOOTHING := 1_000_000.0

  datatype Stat = Stat(plays: nat, skips: nat)
  type Stats = map<int, Stat>

  datatype Config = Config(weight: real, smoothing: real) {
    predicate Valid() { 0.0 <= weight <= 1.0 && 0.0 <= smoothing <= MAX_SMOOTHING }
  }

  datatype Ranked = Ranked(track: Track, cosine: real, keepRate: real, plays: nat, score: real)

  predicate HasData(stats: Stats, id: int) { id in stats && stats[id].plays > 0 }

  function RawKeepRate(s: Stat): real
    requires s.plays > 0
  {
    1.0 - Min(s.skips, s.plays) as real / s.plays as real
  }

  // ---------------------------------------------------------------- what is computed

  function AddRate(stats: Stats): (real, Neighbor) -> real
  {
    (sum: real, c: Neighbor) =>
      if HasData(stats, c.track.trackId) then sum + RawKeepRate(stats[c.track.trackId]) else sum
  }

  function Listened(stats: Stats): Neighbor -> bool
  {
    (c: Neighbor) => HasData(stats, c.track.trackId)
  }

  function RateSum(candidates: seq<Neighbor>, stats: Stats): real { Fold(AddRate(stats), 0.0, candidates) }

  function DataCount(candidates: seq<Neighbor>, stats: Stats): nat { Count(Listened(stats), candidates) }

  function Average(candidates: seq<Neighbor>, stats: Stats): real
  {
    var n := DataCount(candidates, stats);
    if n == 0 then NO_DATA_KEEP_RATE else RateSum(candidates, stats) / n as real
  }

  function Smoothed(s: Stat, avg: real, k: real): real
    requires s.plays > 0 && k >= 0.0
  {
    ((s.plays - Min(s.skips, s.plays)) as real + k * avg) / (s.plays as real + k)
  }

  function KeepRate(stats: Stats, id: int, avg: real, k: real): real
    requires k >= 0.0
  {
    if HasData(stats, id) then Smoothed(stats[id], avg, k) else avg
  }

  function Blend(w: real, cosine: real, keep: real): real { (1.0 - w) * cosine + w * keep }

  function Score(stats: Stats, avg: real, cfg: Config): Neighbor -> Ranked
    requires cfg.Valid()
  {
    (c: Neighbor) =>
      var id := c.track.trackId;
      var keep := KeepRate(stats, id, avg, cfg.smoothing);
      Ranked(c.track, c.score, keep, if HasData(stats, id) then stats[id].plays else 0,
             Blend(cfg.weight, c.score, keep))
  }

  function Scored(candidates: seq<Neighbor>, stats: Stats, cfg: Config): seq<Ranked>
    requires cfg.Valid()
  {
    Map(Score(stats, Average(candidates, stats), cfg), candidates)
  }

  // a comes before b.
  predicate Better(a: Ranked, b: Ranked)
  {
    if a.score != b.score then a.score > b.score
    else if a.cosine != b.cosine then a.cosine > b.cosine
    else a.track.trackId < b.track.trackId
  }

  function Ranking(candidates: seq<Neighbor>, stats: Stats, cfg: Config): seq<Ranked>
    requires cfg.Valid()
  {
    Sort(Better, Scored(candidates, stats, cfg))
  }

  // The first loop of Rerank.
  method AverageKeepRate(candidates: seq<Neighbor>, stats: Stats) returns (avg: real)
    ensures avg == Average(candidates, stats)
  {
    var sum, withData := 0.0, 0;
    for i := 0 to |candidates|
      invariant sum == RateSum(candidates[..i], stats)
      invariant withData == DataCount(candidates[..i], stats)
    {
      var id := candidates[i].track.trackId;
      assert candidates[..i + 1] == candidates[..i] + [candidates[i]];
      FoldSnoc(AddRate(stats), 0.0, candidates[..i], candidates[i]);
      CountAppend(Listened(stats), candidates[..i], candidates[i]);
      if id in stats && stats[id].plays > 0 {
        sum := sum + RawKeepRate(stats[id]);
        withData := withData + 1;
      }
    }
    assert candidates[..|candidates|] == candidates;
    avg := NO_DATA_KEEP_RATE;
    if withData > 0 {
      avg := sum / withData as real;
    }
  }

  // The body of Rerank's second loop.
  method ScoreOne(c: Neighbor, stats: Stats, avg: real, cfg: Config) returns (r: Ranked)
    requires cfg.Valid()
    ensures r == Score(stats, avg, cfg)(c)
  {
    var id := c.track.trackId;
    var keep, plays := avg, 0;
    if id in stats && stats[id].plays > 0 {
      var s := stats[id];
      var skips := Min(s.skips, s.plays);
      var keeps := (s.plays - skips) as real;
      keep := (keeps + cfg.smoothing * avg) / (s.plays as real + cfg.smoothing);
      plays := s.plays;
    }
    assert keep == KeepRate(stats, id, avg, cfg.smoothing);
    hide KeepRate, Blend;
    r := Ranked(c.track, c.score, keep, plays, Blend(cfg.weight, c.score, keep));
  }

  method Rerank(candidates: seq<Neighbor>, stats: Stats, cfg: Config) returns (ranked: seq<Ranked>)
    requires cfg.Valid()
    ensures ranked == Ranking(candidates, stats, cfg)
  {
    hide Score;
    var avg := AverageKeepRate(candidates, stats);
    ranked := [];
    for i := 0 to |candidates|
      invariant |ranked| == i
      invariant forall j :: 0 <= j < i ==> ranked[j] == Score(stats, avg, cfg)(candidates[j])
    {
      var r := ScoreOne(candidates[i], stats, avg, cfg);
      ranked := ranked + [r];
    }
    assert ranked == Scored(candidates, stats, cfg);
    ranked := Sort(Better, ranked);
  }

  // ---------------------------------------------------------------- the order

  ghost predicate DistinctIds(candidates: seq<Neighbor>)
  {
    forall i, j :: 0 <= i < j < |candidates| ==> candidates[i].track.trackId != candidates[j].track.trackId
  }

  lemma ScoredAreOrdered(candidates: seq<Neighbor>, stats: Stats, cfg: Config)
    requires cfg.Valid() && DistinctIds(candidates)
    ensures Orders(Better, Scored(candidates, stats, cfg))
    ensures Distinct(Scored(candidates, stats, cfg))
  {
    var scored := Scored(candidates, stats, cfg);
    forall x, y | x in scored && y in scored && x != y ensures x.track.trackId != y.track.trackId {
      var i :| 0 <= i < |scored| && scored[i] == x;
      var j :| 0 <= j < |scored| && scored[j] == y;
      assert candidates[i].track.trackId != candidates[j].track.trackId;
    }
  }

  // The answer is the one sorted permutation of the scored candidates: whatever sort
  // produced a sorted permutation of them produced this list.
  lemma RankingIsTheSortedPermutation(candidates: seq<Neighbor>, stats: Stats, cfg: Config, other: seq<Ranked>)
    requires cfg.Valid() && DistinctIds(candidates)
    ensures multiset(Ranking(candidates, stats, cfg)) == multiset(Scored(candidates, stats, cfg))
    ensures Sorted(Better, Ranking(candidates, stats, cfg))
    ensures other == Ranking(candidates, stats, cfg) <==>
            multiset(other) == multiset(Scored(candidates, stats, cfg)) && Sorted(Better, other)
  {
    var scored := Scored(candidates, stats, cfg);
    var ranking := Sort(Better, scored);
    ScoredAreOrdered(candidates, stats, cfg);
    SortSorted(Better, scored);
    if multiset(other) == multiset(scored) && Sorted(Better, other) {
      PermutationMembers(scored, ranking);
      OrdersMembers(Better, scored, ranking);
      SortedUnique(Better, ranking, other);
    }
  }

  // Higher scores first, equal scores by cosine, and equal both by id.
  ghost predicate ByScore(ranked: seq<Ranked>)
  {
    forall i, j :: 0 <= i < j < |ranked| ==>
      || ranked[i].score > ranked[j].score
      || (ranked[i].score == ranked[j].score && ranked[i].cosine > ranked[j].cosine)
      || (ranked[i].score == ranked[j].score && ranked[i].cosine == ranked[j].cosine
          && ranked[i].track.trackId < ranked[j].track.trackId)
  }

  lemma RankingIsByScore(candidates: seq<Neighbor>, stats: Stats, cfg: Config)
    requires cfg.Valid() && DistinctIds(candidates)
    ensures ByScore(Ranking(candidates, stats, cfg))
  {
    var scored, ranking := Scored(candidates, stats, cfg), Ranking(candidates, stats, cfg);
    RankingIsTheSortedPermutation(candidates, stats, cfg, ranking);
    ScoredAreOrdered(candidates, stats, cfg);
    hide Ranking, Scored;
    DistinctPermutes(scored, ranking);
    PermutationMembers(scored, ranking);
    forall i, j | 0 <= i < j < |ranking| ensures Better(ranking[i], ranking[j]) {
      assert ranking[i] in scored && ranking[j] in scored && ranking[i] != ranking[j];
    }
  }

  // Without a candidate that has plays the average is one half.
  lemma AverageWithoutData(candidates: seq<Neighbor>, stats: Stats)
    requires forall c :: c in candidates ==>
               c.track.trackId !in stats || stats[c.track.trackId].plays == 0
    ensures Average(candidates, stats) == 0.5
  {
    CountZero(Listened(stats), candidates);
  }

  lemma AverageIgnoresOrder(candidates: seq<Neighbor>, permuted: seq<Neighbor>, stats: Stats)
    requires multiset(candidates) == multiset(permuted)
    ensures Average(candidates, stats) == Average(permuted, stats)
  {
    FoldPermutes(AddRate(stats), 0.0, candidates, permuted);
    FilterPermutes(Listened(stats), candidates, permuted);
    var kept, kept' := Filter(Listened(stats), candidates), Filter(Listened(stats), permuted);
    assert |kept| == |multiset(kept)| == |multiset(kept')| == |kept'|;
  }

  // The input order of the candidates does not matter.
  lemma RankingIgnoresInputOrder(candidates: seq<Neighbor>, permuted: seq<Neighbor>, stats: Stats, cfg: Config)
    requires cfg.Valid() && DistinctIds(candidates)
    requires multiset(candidates) == multiset(permuted)
    ensures Ranking(candidates, stats, cfg) == Ranking(permuted, stats, cfg)
  {
    AverageIgnoresOrder(candidates, permuted, stats);
    MapPermutes(Score(stats, Average(candidates, stats), cfg), candidates, permuted);
    ScoredAreOrdered(candidates, stats, cfg);
    SortCanonical(Better, Scored(candidates, stats, cfg), Scored(permuted, stats, cfg));
  }

  // ---------------------------------------------------------------- keep rates

  lemma QuotientInUnit(a: real, b: real)
    requires 0.0 <= a <= b && b > 0.0
    ensures 0.0 <= a / b <= 1.0
  {
    var q := a / b;
    assert q * b == a;
  }

  lemma ComplementOf(m: real, p: real)
    requires p > 0.0
    ensures p * (1.0 - m / p) == p - m
  {
    assert m / p * p == m;
  }

  lemma RawRateInUnit(s: Stat)
    requires s.plays > 0
    ensures 0.0 <= RawKeepRate(s) <= 1.0
    ensures s.plays as real * RawKeepRate(s) == (s.plays - Min(s.skips, s.plays)) as real
  {
    QuotientInUnit(Min(s.skips, s.plays) as real, s.plays as real);
    ComplementOf(Min(s.skips, s.plays) as real, s.plays as real);
  }

  lemma {:induction false} RateSumBounds(candidates: seq<Neighbor>, stats: Stats)
    ensures 0.0 <= RateSum(candidates, stats) <= DataCount(candidates, stats) as real
  {
    if candidates != [] {
      var last := |candidates| - 1;
      RateSumBounds(candidates[..last], stats);
      if HasData(stats, candidates[last].track.trackId) {
        RawRateInUnit(stats[candidates[last].track.trackId]);
      }
    }
  }

  lemma AverageInUnit(candidates: seq<Neighbor>, stats: Stats)
    ensures 0.0 <= Average(candidates, stats) <= 1.0
  {
    RateSumBounds(candidates, stats);
    var n := DataCount(candidates, stats);
    if n > 0 {
      QuotientInUnit(RateSum(candidates, stats), n as real);
    }
  }

  // Smoothing pulls the raw rate towards the average by the factor plays / (plays + k).
  lemma SmoothedDistance(s: Stat, avg: real, k: real)
    requires s.plays > 0 && k >= 0.0 && 0.0 <= avg <= 1.0
    ensures Smoothed(s, avg, k) - avg == s.plays as real / (s.plays as real + k) * (RawKeepRate(s) - avg)
    ensures 0.0 <= Smoothed(s, avg, k) <= 1.0
    ensures avg <= RawKeepRate(s) ==> avg <= Smoothed(s, avg, k) <= RawKeepRate(s)
    ensures RawKeepRate(s) <= avg ==> RawKeepRate(s) <= Smoothed(s, avg, k) <= avg
  {
    RawRateInUnit(s);
    var p, raw := s.plays as real, RawKeepRate(s);
    var num := (s.plays - Min(s.skips, s.plays)) as real + k * avg;
    SmoothedAsMixture(p, k, raw, avg, num);
    assert Smoothed(s, avg, k) == num / (p + k);
    QuotientInUnit(p, p + k);
    hide Smoothed, RawKeepRate, Min;
    PartOf(p / (p + k), raw - avg, p / (p + k) * (raw - avg));
  }

  lemma SmoothedAsMixture(p: real, k: real, raw: real, avg: real, num: real)
    requires p > 0.0 && k >= 0.0 && num == p * raw + k * avg
    ensures num / (p + k) == avg + p / (p + k) * (raw - avg)
  {
    var part, d := p / (p + k), raw - avg;
    assert part * (p + k) == p;
    TimesSum(avg, part, d, p + k, p);
    SameNumerator(p, k, raw, avg);
    DivideBack(num, p + k, avg + part * d);
  }

  lemma TimesSum(avg: real, part: real, d: real, q: real, p: real)
    requires part * q == p
    ensures (avg + part * d) * q == avg * q + p * d
  {
    assert part * d * q == part * q * d;
  }

  lemma SameNumerator(p: real, k: real, raw: real, avg: real)
    ensures avg * (p + k) + p * (raw - avg) == p * raw + k * avg
  {
  }

  lemma DivideBack(num: real, q: real, x: real)
    requires q > 0.0 && num == x * q
    ensures num / q == x
  {
    assert num / q * q == num;
    assert (num / q - x) * q == 0.0;
  }

  lemma PartOf(part: real, d: real, product: real)
    requires 0.0 <= part <= 1.0 && product == part * d
    ensures d >= 0.0 ==> 0.0 <= product <= d
    ensures d <= 0.0 ==> d <= product <= 0.0
  {
  }

  // Every line of the answer is the score of some candidate.
  lemma AnswersAreScored(candidates: seq<Neighbor>, stats: Stats, cfg: Config, r: Ranked) returns (i: nat)
    requires cfg.Valid() && r in Ranking(candidates, stats, cfg)
    ensures i < |candidates| && r == Score(stats, Average(candidates, stats), cfg)(candidates[i])
  {
    PermutationMembers(Ranking(candidates, stats, cfg), Scored(candidates, stats, cfg));
    var scored := Scored(candidates, stats, cfg);
    i :| 0 <= i < |scored| && scored[i] == r;
  }

  // The keep rate is a rate: in [0, 1], between the track's own raw rate and the average, at
  // plays / (plays + k) of the raw distance; the average itself for a track without plays.
  ghost predicate RateFits(r: Ranked, stats: Stats, avg: real, k: real)
    requires k >= 0.0
  {
    && 0.0 <= r.keepRate <= 1.0
    && var id := r.track.trackId;
    if HasData(stats, id) then
      && r.plays == stats[id].plays
      && r.keepRate - avg == r.plays as real / (r.plays as real + k) * (RawKeepRate(stats[id]) - avg)
      && (avg <= r.keepRate <= RawKeepRate(stats[id]) || RawKeepRate(stats[id]) <= r.keepRate <= avg)
    else r.plays == 0 && r.keepRate == avg
  }

  lemma KeepRatesInAnswer(candidates: seq<Neighbor>, stats: Stats, cfg: Config)
    requires cfg.Valid()
    ensures forall r :: r in Ranking(candidates, stats, cfg) ==>
              RateFits(r, stats, Average(candidates, stats), cfg.smoothing)
  {
    AverageInUnit(candidates, stats);
    hide RawKeepRate, Smoothed, Blend, Average, Ranking;
    forall r | r in Ranking(candidates, stats, cfg)
      ensures RateFits(r, stats, Average(candidates, stats), cfg.smoothing)
    {
      var _ := AnswersAreScored(candidates, stats, cfg, r);
      if HasData(stats, r.track.trackId) {
        SmoothedDistance(stats[r.track.trackId], Average(candidates, stats), cfg.smoothing);
      }
    }
  }

  // A line of the answer shows a candidate with its own cosine, and its score lies on the way
  // from the cosine to the keep rate, the share weight of it.
  ghost predicate ScoreFits(r: Ranked, candidates: seq<Neighbor>, weight: real)
  {
    && Neighbor(r.track, r.cosine) in candidates
    && r.score - r.cosine == weight * (r.keepRate - r.cosine)
    && (r.cosine <= r.score <= r.keepRate || r.keepRate <= r.score <= r.cosine)
  }

  lemma BlendLiesBetween(w: real, cosine: real, keep: real)
    requires 0.0 <= w <= 1.0
    ensures Blend(w, cosine, keep) - cosine == w * (keep - cosine)
    ensures cosine <= Blend(w, cosine, keep) <= keep || keep <= Blend(w, cosine, keep) <= cosine
  {
    PartOf(w, keep - cosine, w * (keep - cosine));
  }

  lemma ScoresInAnswer(candidates: seq<Neighbor>, stats: Stats, cfg: Config)
    requires cfg.Valid()
    ensures forall r :: r in Ranking(candidates, stats, cfg) ==> ScoreFits(r, candidates, cfg.weight)
  {
    hide KeepRate, Blend, Average, Ranking;
    forall r | r in Ranking(candidates, stats, cfg) ensures ScoreFits(r, candidates, cfg.weight) {
      var i := AnswersAreScored(candidates, stats, cfg, r);
      assert candidates[i] == Neighbor(r.track, r.cosine);
      BlendLiesBetween(cfg.weight, r.cosine, r.keepRate);
    }
  }

  // ---------------------------------------------------------------- without behaviour data

  predicate Closer(a: Ranked, b: Ranked)
  {
    if a.cosine != b.cosine then a.cosine > b.cosine else a.track.trackId < b.track.trackId
  }

  lemma SameOrderAtSameRate(a: Ranked, b: Ranked, w: real)
    requires 0.0 <= w <= 1.0
    requires a.score == Blend(w, a.cosine, a.keepRate) && b.score == Blend(w, b.cosine, b.keepRate)
    requires w == 0.0 || a.keepRate == b.keepRate
    ensures Better(a, b) <==> Closer(a, b)
  {
    var d := a.cosine - b.cosine;
    assert a.score - b.score == (1.0 - w) * d;
    PartOf(1.0 - w, d, (1.0 - w) * d);
    if w != 1.0 && d != 0.0 {
      assert (1.0 - w) * d != 0.0;
    }
  }

  lemma FlatRates(candidates: seq<Neighbor>, stats: Stats, cfg: Config, x: Ranked, y: Ranked)
    requires cfg.Valid() && (cfg.weight == 0.0 || DataCount(candidates, stats) == 0)
    requires x in Ranking(candidates, stats, cfg) && y in Ranking(candidates, stats, cfg)
    ensures Better(x, y) <==> Closer(x, y)
  {
    hide RawKeepRate, Smoothed, Average, Blend;
    var a := AnswersAreScored(candidates, stats, cfg, x);
    var b := AnswersAreScored(candidates, stats, cfg, y);
    CountZero(Listened(stats), candidates);
    assert candidates[a] in candidates && candidates[b] in candidates;
    SameOrderAtSameRate(x, y, cfg.weight);
  }

  // With weight 0, or when no candidate has plays, the order is cosine first, then id.
  lemma WithoutBehaviourOrderIsCosine(candidates: seq<Neighbor>, stats: Stats, cfg: Config)
    requires cfg.Valid() && DistinctIds(candidates)
    requires cfg.weight == 0.0 || DataCount(candidates, stats) == 0
    ensures Sorted(Closer, Ranking(candidates, stats, cfg))
  {
    var ranking := Ranking(candidates, stats, cfg);
    RankingIsTheSortedPermutation(candidates, stats, cfg, ranking);
    forall i, j | 0 <= i < j < |ranking| ensures !Closer(ranking[j], ranking[i]) {
      FlatRates(candidates, stats, cfg, ranking[j], ranking[i]);
    }
  }

  // ---------------------------------------------------------------- one more skip

  function Skipped(stats: Stats, id: int): Stats
    requires id in stats
  {
    stats[id := Stat(stats[id].plays, stats[id].skips + 1)]
  }

  lemma SkipLowersRawRate(s: Stat)
    requires s.skips + 1 <= s.plays
    ensures RawKeepRate(Stat(s.plays, s.skips + 1)) == RawKeepRate(s) - 1.0 / s.plays as real
  {
    var p := s.plays as real;
    assert (s.skips + 1) as real / p == s.skips as real / p + 1.0 / p;
  }

  lemma {:induction false} SkipAwayFrom(candidates: seq<Neighbor>, stats: Stats, id: int)
    requires id in stats && stats[id].skips + 1 <= stats[id].plays
    requires forall c :: c in candidates ==> c.track.trackId != id
    ensures RateSum(candidates, Skipped(stats, id)) == RateSum(candidates, stats)
  {
    if candidates != [] {
      var last := |candidates| - 1;
      assert candidates[last] in candidates;
      SkipAwayFrom(candidates[..last], stats, id);
    }
  }

  lemma {:induction false} SkipKeepsCount(candidates: seq<Neighbor>, stats: Stats, id: int)
    requires id in stats
    ensures DataCount(candidates, Skipped(stats, id)) == DataCount(candidates, stats)
  {
    if candidates != [] {
      SkipKeepsCount(candidates[..|candidates| - 1], stats, id);
    }
  }

  // The skipped track is one of the candidates, so the sum of raw rates drops by 1/plays.
  lemma {:induction false} SkipLowersSum(candidates: seq<Neighbor>, stats: Stats, i: nat)
    requires DistinctIds(candidates) && i < |candidates|
    requires var id := candidates[i].track.trackId; id in stats && stats[id].skips + 1 <= stats[id].plays
    ensures var id := candidates[i].track.trackId;
      RateSum(candidates, Skipped(stats, id)) == RateSum(candidates, stats) - 1.0 / stats[id].plays as real
  {
    var id := candidates[i].track.trackId;
    var last := |candidates| - 1;
    if i == last {
      SkipAwayFrom(candidates[..last], stats, id);
      SkipLowersRawRate(stats[id]);
    } else {
      SkipLowersSum(candidates[..last], stats, i);
      assert candidates[last].track.trackId != id;
    }
  }

  // What the shared average loses by one more skip among n tracks with plays.
  function SharedLoss(plays: nat, n: nat): real
    requires plays > 0 && n > 0
  {
    1.0 / plays as real / n as real
  }

  lemma QuotientAtLeast(a: real, b: real, q: real)
    requires b > 0.0 && q * b <= a
    ensures a / b >= q
  {
    assert a / b * b == a;
  }

  lemma OwnLoss(p: real, n: real, k: real, q: real)
    requires p >= 1.0 && n >= 1.0 && k >= 0.0 && q == 1.0 / p / n
    ensures (1.0 + k * q) / (p + k) >= q
  {
    assert q * p == 1.0 / n;
    assert q * p <= 1.0;
    assert q * (p + k) <= 1.0 + k * q;
    QuotientAtLeast(1.0 + k * q, p + k, q);
  }

  // The skipped track's own keep rate loses at least the shared loss ...
  lemma OwnRateFalls(s: Stat, n: nat, avg: real, k: real)
    requires s.skips + 1 <= s.plays && n > 0 && k >= 0.0
    ensures var q := SharedLoss(s.plays, n); Smoothed(Stat(s.plays, s.skips + 1), avg - q, k) <= Smoothed(s, avg, k) - q
  {
    var q, d := SharedLoss(s.plays, n), s.plays as real + k;
    var a := (s.plays - s.skips) as real + k * avg;
    OwnLoss(s.plays as real, n as real, k, q);
    assert Smoothed(Stat(s.plays, s.skips + 1), avg - q, k) == (a - (1.0 + k * q)) / d;
    assert (a - (1.0 + k * q)) / d == a / d - (1.0 + k * q) / d;
  }

  // ... and every other track's at most the shared loss.
  lemma OtherRateFallsLess(s: Stat, q: real, avg: real, k: real)
    requires s.plays > 0 && k >= 0.0 && q >= 0.0
    ensures Smoothed(s, avg - q, k) >= Smoothed(s, avg, k) - q
  {
    var p := s.plays as real;
    var d := p + k;
    var a := (s.plays - Min(s.skips, s.plays)) as real + k * avg;
    QuotientInUnit(k, d);
    PartOf(k / d, q, k / d * q);
    assert k / d * q == k * q / d;
    assert (a - k * q) / d == a / d - k * q / d;
    assert Smoothed(s, avg - q, k) == (a - k * q) / d;
  }

  lemma SkipMovesKeepRates(stats: Stats, id: int, other: int, avg: real, n: nat, k: real)
    requires id in stats && stats[id].skips + 1 <= stats[id].plays && other != id && n >= 1 && k >= 0.0
    ensures var avg' := avg - SharedLoss(stats[id].plays, n);
      KeepRate(Skipped(stats, id), id, avg', k) - KeepRate(stats, id, avg, k)
        <= KeepRate(Skipped(stats, id), other, avg', k) - KeepRate(stats, other, avg, k)
  {
    var q := SharedLoss(stats[id].plays, n);
    assert q >= 0.0;
    hide Smoothed, SharedLoss;
    OwnRateFalls(stats[id], n, avg, k);
    if HasData(stats, other) {
      OtherRateFallsLess(stats[other], q, avg, k);
      assert Skipped(stats, id)[other] == stats[other];
    }
  }

  lemma SkipMovesAverage(candidates: seq<Neighbor>, stats: Stats, i: nat)
    requires DistinctIds(candidates) && i < |candidates|
    requires var id := candidates[i].track.trackId; id in stats && stats[id].skips + 1 <= stats[id].plays
    ensures var id := candidates[i].track.trackId; var n := DataCount(candidates, stats);
      n >= 1 && Average(candidates, Skipped(stats, id)) == Average(candidates, stats) - SharedLoss(stats[id].plays, n)
  {
    var id := candidates[i].track.trackId;
    SkipKeepsCount(candidates, stats, id);
    SkipLowersSum(candidates, stats, i);
    CountZero(Listened(stats), candidates);
    assert candidates[i] in candidates && Listened(stats)(candidates[i]);
    var n, a, b := DataCount(candidates, stats) as real, RateSum(candidates, stats), 1.0 / stats[id].plays as real;
    hide RateSum, DataCount;
    QuotientOfDifference(a, b, n);
  }

  lemma QuotientOfDifference(a: real, b: real, n: real)
    requires n > 0.0
    ensures (a - b) / n == a / n - b / n
  {
    var x, y := a / n, b / n;
    assert x * n == a && y * n == b;
    DivideBack(a - b, n, x - y);
  }

  // A track that already has as many skips as plays has nothing left to lose.
  lemma {:induction false} SkipBeyondPlaysKeepsSum(candidates: seq<Neighbor>, stats: Stats, id: int)
    requires id in stats && stats[id].skips >= stats[id].plays
    ensures RateSum(candidates, Skipped(stats, id)) == RateSum(candidates, stats)
  {
    if candidates != [] {
      SkipBeyondPlaysKeepsSum(candidates[..|candidates| - 1], stats, id);
    }
  }

  lemma SkipBeyondPlays(candidates: seq<Neighbor>, stats: Stats, cfg: Config, id: int)
    requires cfg.Valid() && id in stats && stats[id].skips >= stats[id].plays
    ensures Scored(candidates, Skipped(stats, id), cfg) == Scored(candidates, stats, cfg)
  {
    SkipKeepsCount(candidates, stats, id);
    SkipBeyondPlaysKeepsSum(candidates, stats, id);
    var avg := Average(candidates, stats);
    assert Average(candidates, Skipped(stats, id)) == avg;
    hide Average, Blend;
    forall i | 0 <= i < |candidates|
      ensures KeepRate(Skipped(stats, id), candidates[i].track.trackId, avg, cfg.smoothing)
           == KeepRate(stats, candidates[i].track.trackId, avg, cfg.smoothing)
    {
    }
    hide KeepRate;
  }

  // One more skip of a candidate leaves every other candidate that was ahead of it ahead.
  lemma SkipKeepsOthersAhead(candidates: seq<Neighbor>, stats: Stats, cfg: Config, i: nat, j: nat)
    requires cfg.Valid() && DistinctIds(candidates) && i < |candidates| && j < |candidates| && i != j
    requires candidates[i].track.trackId in stats
    requires Better(Scored(candidates, stats, cfg)[j], Scored(candidates, stats, cfg)[i])
    ensures var after := Scored(candidates, Skipped(stats, candidates[i].track.trackId), cfg);
      Better(after[j], after[i])
  {
    hide KeepRate, Average, Blend, SharedLoss;
    var id, other := candidates[i].track.trackId, candidates[j].track.trackId;
    if stats[id].skips >= stats[id].plays {
      SkipBeyondPlays(candidates, stats, cfg, id);
    } else {
      assert id != other;
      SkipMovesAverage(candidates, stats, i);
      SkipMovesKeepRates(stats, id, other, Average(candidates, stats), DataCount(candidates, stats), cfg.smoothing);
      var before, after := Scored(candidates, stats, cfg), Scored(candidates, Skipped(stats, id), cfg);
      BlendMoves(cfg.weight, before[i].cosine, before[i].keepRate, after[i].keepRate,
                 before[j].cosine, before[j].keepRate, after[j].keepRate);
    }
  }

  lemma BlendMoves(w: real, c: real, keep: real, keep': real, d: real, other: real, other': real)
    requires w >= 0.0 && keep' - keep <= other' - other
    ensures Blend(w, c, keep') - Blend(w, c, keep) <= Blend(w, d, other') - Blend(w, d, other)
  {
    assert w * ((other' - other) - (keep' - keep)) >= 0.0;
  }

  // The place of a track in an answer: how many tracks are shown before it.
  ghost predicate ShownAt(ranking: seq<Ranked>, id: int, place: nat)
  {
    place < |ranking| && ranking[place].track.trackId == id
  }

  lemma PlaceIsOrder(candidates: seq<Neighbor>, stats: Stats, cfg: Config, i: nat, j: nat, a: nat, b: nat)
    requires cfg.Valid() && DistinctIds(candidates) && i < |candidates| && j < |candidates| && i != j
    requires ShownAt(Ranking(candidates, stats, cfg), candidates[i].track.trackId, a)
    requires ShownAt(Ranking(candidates, stats, cfg), candidates[j].track.trackId, b)
    ensures b < a <==> Better(Scored(candidates, stats, cfg)[j], Scored(candidates, stats, cfg)[i])
  {
    var scored, ranking := Scored(candidates, stats, cfg), Ranking(candidates, stats, cfg);
    RankingIsTheSortedPermutation(candidates, stats, cfg, ranking);
    ScoredAreOrdered(candidates, stats, cfg);
    PermutationMembers(scored, ranking);
    assert ranking[a] in scored && ranking[b] in scored;
    var i' :| 0 <= i' < |scored| && scored[i'] == ranking[a];
    var j' :| 0 <= j' < |scored| && scored[j'] == ranking[b];
    assert i' == i && j' == j;
    assert scored[i] in scored && scored[j] in scored;
  }

  ghost predicate ShownBefore(ranking: seq<Ranked>, first: int, second: int)
  {
    exists a, b :: a < b && ShownAt(ranking, first, a) && ShownAt(ranking, second, b)
  }

  lemma EveryCandidateIsShown(candidates: seq<Neighbor>, stats: Stats, cfg: Config, i: nat) returns (place: nat)
    requires cfg.Valid() && i < |candidates|
    ensures ShownAt(Ranking(candidates, stats, cfg), candidates[i].track.trackId, place)
  {
    var scored, ranking := Scored(candidates, stats, cfg), Ranking(candidates, stats, cfg);
    hide Ranking, KeepRate, Blend, Average;
    assert scored[i] in scored && scored[i].track == candidates[i].track;
    assert multiset(ranking) == multiset(scored) by { RankingPermutes(candidates, stats, cfg); }
    PermutationMembers(scored, ranking);
    place :| 0 <= place < |ranking| && ranking[place] == scored[i];
  }

  lemma RankingPermutes(candidates: seq<Neighbor>, stats: Stats, cfg: Config)
    requires cfg.Valid()
    ensures multiset(Ranking(candidates, stats, cfg)) == multiset(Scored(candidates, stats, cfg))
  {
  }

  // Skip monotonicity on the answers themselves: a candidate shown before another that then
  // collects one more skip is still shown before it.
  lemma SkipNeverOvertakes(candidates: seq<Neighbor>, stats: Stats, cfg: Config, i: nat, j: nat)
    requires cfg.Valid() && DistinctIds(candidates) && i < |candidates| && j < |candidates| && i != j
    requires candidates[i].track.trackId in stats
    ensures var id, other := candidates[i].track.trackId, candidates[j].track.trackId;
      ShownBefore(Ranking(candidates, stats, cfg), other, id) ==>
      ShownBefore(Ranking(candidates, Skipped(stats, id), cfg), other, id)
  {
    hide Ranking, Scored, Better, ShownAt;
    var id, other := candidates[i].track.trackId, candidates[j].track.trackId;
    if ShownBefore(Ranking(candidates, stats, cfg), other, id) {
      var before := Ranking(candidates, stats, cfg);
      var b, a :| b < a && ShownAt(before, other, b) && ShownAt(before, id, a);
      PlaceIsOrder(candidates, stats, cfg, i, j, a, b);
      SkipKeepsOthersAhead(candidates, stats, cfg, i, j);
      var a' := EveryCandidateIsShown(candidates, Skipped(stats, id), cfg, i);
      var b' := EveryCandidateIsShown(candidates, Skipped(stats, id), cfg, j);
      PlaceIsOrder(candidates, Skipped(stats, id), cfg, i, j, a', b');
    }
  }
}
