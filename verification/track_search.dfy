// Client.SearchTrack (internal/provider/musicbrainz.go): the choice of recordings and the
// track built from them, and why the server's order of results cannot be seen in it.
module TrackSearch {
  import opened Collections
  import opened MusicBrainz

  // ---------------------------------------------------------------- selection

  function Accepts(text: Text, want: string): Recording -> bool
  {
    (r: Recording) => r.score >= MIN_SCORE && Credited(text, r.credit, want).Some?
  }

  function ToMatch(text: Text, want: string): Recording -> Match
  {
    (r: Recording) => Match(r, var a := Credited(text, r.credit, want); if a.Some? then a.value else ArtistRef("", ""))
  }

  function Matching(text: Text, recordings: seq<Recording>, artist: string): seq<Match>
  {
    var want := text.artistForm(artist);
    Map(ToMatch(text, want), Filter(Accepts(text, want), recordings))
  }

  method CreditedArtist(text: Text, credit: seq<CreditEntry>, want: string) returns (r: Option<ArtistRef>)
    ensures r == Credited(text, credit, want)
  {
    if want == "" {
      return None;
    }
    var full := "";
    for i := 0 to |credit|
      invariant full == FullCredit(credit[..i])
      invariant forall j :: 0 <= j < i ==> !CreditsEntry(text, credit[j], want)
    {
      var entry := credit[i];
      if text.artistForm(entry.name) == want || text.artistForm(entry.artist.name) == want {
        return Some(ArtistRef(entry.artist.id, entry.name));
      }
      assert credit[..i + 1][..i] == credit[..i];
      full := full + entry.name + entry.joinPhrase;
    }
    assert credit[..|credit|] == credit;
    if |credit| > 1 && text.artistForm(full) == want {
      return Some(ArtistRef(credit[0].artist.id, full));
    }
    return None;
  }

  lemma MatchingNext(text: Text, want: string, recordings: seq<Recording>, i: nat)
    requires i < |recordings|
    ensures var before, rec := Map(ToMatch(text, want), Filter(Accepts(text, want), recordings[..i])), recordings[i];
      Map(ToMatch(text, want), Filter(Accepts(text, want), recordings[..i + 1])) ==
      if Accepts(text, want)(rec) then before + [ToMatch(text, want)(rec)] else before
  {
    hide Credited;
    assert recordings[..i + 1] == recordings[..i] + [recordings[i]];
    FilterAppend(Accepts(text, want), recordings[..i], [recordings[i]]);
    var rec := recordings[i];
    assert Filter(Accepts(text, want), [rec]) == if Accepts(text, want)(rec) then [rec] else [];
  }

  method MatchingRecordings(text: Text, recordings: seq<Recording>, artist: string) returns (out: seq<Match>)
    ensures out == Matching(text, recordings, artist)
  {
    var want := text.artistForm(artist);
    out := [];
    for i := 0 to |recordings|
      invariant out == Map(ToMatch(text, want), Filter(Accepts(text, want), recordings[..i]))
    {
      var rec := recordings[i];
      MatchingNext(text, want, recordings, i);
      hide Map, Filter;
      if rec.score < MIN_SCORE {
        continue;
      }
      var ref := CreditedArtist(text, rec.credit, want);
      if ref.Some? {
        out := out + [Match(rec, ref.value)];
      }
    }
    assert recordings[..|recordings|] == recordings;
  }

  function TagsOf(text: Text, rec: Recording): seq<Tag> { Merged(text, rec.tags + rec.genres) }

  function Votes(text: Text, rec: Recording): int { TotalVotes(TagsOf(text, rec)) }

  predicate Tagged(m: Match) { |m.rec.tags| > 0 || |m.rec.genres| > 0 }

  // Most votes first, then the smaller recording id.
  function Preferred(text: Text): (Match, Match) -> bool
  {
    (a: Match, b: Match) =>
      var va, vb := Votes(text, a.rec), Votes(text, b.rec);
      if va != vb then va > vb else NameLess(a.rec.id, b.rec.id)
  }

  function BestTagged(text: Text, matches: seq<Match>): seq<Match>
  {
    Take(Sort(Preferred(text), Filter(Tagged, matches)), MAX_MERGED)
  }

  function TagsIn(text: Text): Match -> seq<Tag> { (m: Match) => TagsOf(text, m.rec) }

  function Summed(entries: seq<Tag>): seq<Tag> { Fold(Putting(Sum), [], entries) }

  function SumOf(text: Text, matches: seq<Match>): seq<Tag>
  {
    SortTags(Summed(Flatten(Map(TagsIn(text), matches))))
  }

  // The inner loop of sumTags.
  method AddAll(index: map<string, int>, tags: seq<Tag>, merged: seq<Tag>, ghost before: seq<Tag>)
      returns (index': map<string, int>, tags': seq<Tag>)
    requires Indexes(index, tags) && tags == Summed(before)
    requires forall t :: t in merged ==> t.name != ""
    ensures Indexes(index', tags') && tags' == Summed(before + merged)
  {
    hide Indexes, Put;
    index', tags' := index, tags;
    assert before + merged[..0] == before;
    for i := 0 to |merged|
      invariant Indexes(index', tags') && tags' == Summed(before + merged[..i])
    {
      assert before + merged[..i + 1] == (before + merged[..i]) + [merged[i]];
      FoldSnoc(Putting(Sum), [], before + merged[..i], merged[i]);
      assert merged[i] in merged;
      index', tags' := PutEntry(index', tags', merged[i], Sum);
    }
    assert merged[..|merged|] == merged;
  }

  method SumTags(text: Text, matches: seq<Match>) returns (tags: seq<Tag>)
    ensures tags == SumOf(text, matches)
    ensures DistinctNames(tags)
  {
    var index: map<string, int> := map[];
    tags := [];
    for g := 0 to |matches|
      invariant Indexes(index, tags) && tags == Summed(Flatten(Map(TagsIn(text), matches[..g])))
    {
      var rec := matches[g].rec;
      var merged := MergeTags(text, [rec.tags, rec.genres]);
      FlattenTwo(rec.tags, rec.genres);
      FoldNamesFolded(text, rec.tags + rec.genres);
      index, tags := AddAll(index, tags, merged, Flatten(Map(TagsIn(text), matches[..g])));
      FlattenSnoc(TagsIn(text), matches, g);
    }
    assert matches[..|matches|] == matches;
    SortedNamesDistinct(tags);
    tags := SortTags(tags);
  }

  lemma FlattenTwo(a: seq<Tag>, b: seq<Tag>)
    ensures Flatten([a, b]) == a + b
  {
    assert [a, b][..1] == [a];
    assert [a][..0] == [];
    assert Flatten([a]) == Flatten<Tag>([]) + a;
  }

  lemma FlattenSnoc(f: Match -> seq<Tag>, matches: seq<Match>, g: nat)
    requires g < |matches|
    ensures Flatten(Map(f, matches[..g + 1])) == Flatten(Map(f, matches[..g])) + f(matches[g])
  {
    assert Map(f, matches[..g + 1])[..g] == Map(f, matches[..g]);
  }

  lemma SortedNamesDistinct(tags: seq<Tag>)
    requires DistinctNames(tags)
    ensures DistinctNames(SortTags(tags))
  {
    var names := (t: Tag) => t.name;
    assert Distinct(Map(names, tags));
    MapPermutes(names, tags, SortTags(tags));
    DistinctPermutes(Map(names, tags), Map(names, SortTags(tags)));
    var sorted := Map(names, SortTags(tags));
    assert forall i :: 0 <= i < |sorted| ==> sorted[i] == SortTags(tags)[i].name;
  }

  // ---------------------------------------------------------------- the track

  function TagNames(tags: seq<Tag>): seq<string> { Map((t: Tag) => t.name, tags) }

  function TrackOf(m: Match, weighted: seq<Tag>): Track
  {
    Track(m.rec.id, m.rec.title, m.artist.name, m.artist.id, TagNames(weighted), weighted, [], NoTags, false)
  }

  predicate IdLess(a: Match, b: Match) { NameLess(a.rec.id, b.rec.id) }

  // One search: its recordings, or an upstream failure.
  datatype Search = Hits(recordings: seq<Recording>) | SearchFailed(status: int)

  datatype Lookup = Found(track: Track) | NotFound | Failed(status: int)

  // What SearchTrack answers, given what its two searches would return.
  function Answer(text: Text, artist: string, tagged: Search, plain: Search): Lookup
  {
    if tagged.SearchFailed? then Failed(tagged.status)
    else
      var best := BestTagged(text, Matching(text, tagged.recordings, artist));
      if best != [] then Found(TrackOf(best[0], SumOf(text, best)))
      else if plain.SearchFailed? then Failed(plain.status)
      else
        var matches := Matching(text, plain.recordings, artist);
        if matches == [] then NotFound else Found(TrackOf(Sort(IdLess, matches)[0], []))
  }

  method SearchTrack(text: Text, artist: string, tagged: Search, plain: Search) returns (r: Lookup)
    ensures r == Answer(text, artist, tagged, plain)
  {
    if tagged.SearchFailed? {
      return Failed(tagged.status);
    }
    var matches := MatchingRecordings(text, tagged.recordings, artist);
    var best := BestTagged(text, matches);
    if |best| > 0 {
      var weighted := SumTags(text, best);
      return Found(TrackOf(best[0], weighted));
    }
    if plain.SearchFailed? {
      return Failed(plain.status);
    }
    matches := MatchingRecordings(text, plain.recordings, artist);
    if |matches| == 0 {
      return NotFound;
    }
    var sorted := Sort(IdLess, matches);
    return Found(TrackOf(sorted[0], []));
  }

  // ---------------------------------------------------------------- the server's order

  // A recording without the order of its tags.
  datatype Content = Content(id: string, score: int, title: string, credit: seq<CreditEntry>,
                             tags: multiset<Tag>, genres: multiset<Tag>)

  function ContentOf(r: Recording): Content
  {
    Content(r.id, r.score, r.title, r.credit, multiset(r.tags), multiset(r.genres))
  }

  // The same recordings with the same tags, each in any order.
  ghost predicate SameData(xs: seq<Recording>, ys: seq<Recording>)
  {
    multiset(Map(ContentOf, xs)) == multiset(Map(ContentOf, ys))
  }

  ghost predicate DistinctIds(xs: seq<Recording>)
  {
    forall i, j :: 0 <= i < j < |xs| ==> xs[i].id != xs[j].id
  }

  // Everything the answer needs of a recording.
  datatype Summary = Summary(id: string, score: int, title: string, credit: Option<ArtistRef>, tagged: bool,
                             tags: seq<Tag>, votes: int)

  function Summarize(text: Text, want: string): Recording -> Summary
  {
    (r: Recording) =>
      Summary(r.id, r.score, r.title, Credited(text, r.credit, want), |r.tags| > 0 || |r.genres| > 0,
              SortTags(TagsOf(text, r)), Votes(text, r))
  }

  lemma SummaryIgnoresTagOrder(text: Text, want: string, r: Recording, q: Recording)
    requires ContentOf(r) == ContentOf(q)
    ensures Summarize(text, want)(r) == Summarize(text, want)(q)
  {
    assert |r.tags| == |multiset(r.tags)| && |q.tags| == |multiset(q.tags)|;
    assert |r.genres| == |multiset(r.genres)| && |q.genres| == |multiset(q.genres)|;
    MergedPermutes(text, r.tags + r.genres, q.tags + q.genres);
    StrongerOrders(TagsOf(text, r));
    SortCanonical(Stronger, TagsOf(text, r), TagsOf(text, q));
    TotalPermutes(TagsOf(text, r), TagsOf(text, q));
  }

  // The summary of a content, through any recording that has it.
  ghost function SummaryOfContent(text: Text, want: string, c: Content): Summary
  {
    if r: Recording :| ContentOf(r) == c then Summarize(text, want)(r)
    else Summary("", 0, "", None, false, [], 0)
  }

  lemma SummaryThroughContent(text: Text, want: string, r: Recording)
    ensures SummaryOfContent(text, want, ContentOf(r)) == Summarize(text, want)(r)
  {
    hide Summarize;
    assert ContentOf(r).id == r.id;
    var q: Recording :| ContentOf(q) == ContentOf(r)
                        && SummaryOfContent(text, want, ContentOf(r)) == Summarize(text, want)(q);
    SummaryIgnoresTagOrder(text, want, q, r);
  }

  lemma SummariesPermute(text: Text, want: string, xs: seq<Recording>, ys: seq<Recording>)
    requires SameData(xs, ys)
    ensures multiset(Map(Summarize(text, want), xs)) == multiset(Map(Summarize(text, want), ys))
  {
    ghost var ofContent := (c: Content) => SummaryOfContent(text, want, c);
    hide ContentOf, SummaryOfContent, Summarize;
    forall r: Recording ensures ofContent(ContentOf(r)) == Summarize(text, want)(r) {
      SummaryThroughContent(text, want, r);
    }
    assert Map(Summarize(text, want), xs) == Map(ofContent, Map(ContentOf, xs));
    assert Map(Summarize(text, want), ys) == Map(ofContent, Map(ContentOf, ys));
    MapPermutes(ofContent, Map(ContentOf, xs), Map(ContentOf, ys));
  }

  // ---------------------------------------------------------------- the answer from summaries

  function AcceptedSummary(s: Summary): bool { s.score >= MIN_SCORE && s.credit.Some? }
  function TaggedSummary(s: Summary): bool { s.tagged }

  predicate PreferredSummary(a: Summary, b: Summary)
  {
    if a.votes != b.votes then a.votes > b.votes else NameLess(a.id, b.id)
  }

  predicate SummaryIdLess(a: Summary, b: Summary) { NameLess(a.id, b.id) }

  function SummaryOfMatch(text: Text, want: string): Match -> Summary
  {
    (m: Match) =>
      Summary(m.rec.id, m.rec.score, m.rec.title, Some(m.artist), Tagged(m),
              SortTags(TagsOf(text, m.rec)), Votes(text, m.rec))
  }

  function SummaryTags(): Summary -> seq<Tag> { (s: Summary) => s.tags }

  function TrackOfSummary(s: Summary, weighted: seq<Tag>): Track
  {
    var a := if s.credit.Some? then s.credit.value else ArtistRef("", "");
    Track(s.id, s.title, a.name, a.id, TagNames(weighted), weighted, [], NoTags, false)
  }

  function BestSummaries(summaries: seq<Summary>): seq<Summary>
  {
    Take(Sort(PreferredSummary, Filter(TaggedSummary, Filter(AcceptedSummary, summaries))), MAX_MERGED)
  }

  lemma MatchingBySummaries(text: Text, recordings: seq<Recording>, artist: string)
    ensures var want := text.artistForm(artist);
      Map(SummaryOfMatch(text, want), Matching(text, recordings, artist))
        == Filter(AcceptedSummary, Map(Summarize(text, want), recordings))
  {
    var want := text.artistForm(artist);
    var kept := Filter(Accepts(text, want), recordings);
    FilterMap(Summarize(text, want), Accepts(text, want), AcceptedSummary, recordings);
    FilterMembers(Accepts(text, want), recordings);
    forall i | 0 <= i < |kept|
      ensures SummaryOfMatch(text, want)(ToMatch(text, want)(kept[i])) == Summarize(text, want)(kept[i])
    {
      assert kept[i] in kept;
    }
  }

  lemma SortedBySummaries(text: Text, want: string, matches: seq<Match>)
    ensures Map(SummaryOfMatch(text, want), Sort(Preferred(text), Filter(Tagged, matches)))
         == Sort(PreferredSummary, Filter(TaggedSummary, Map(SummaryOfMatch(text, want), matches)))
  {
    hide Votes, TagsOf, SortTags, Sort, Filter, Map, Tagged;
    assert forall m :: Tagged(m) == TaggedSummary(SummaryOfMatch(text, want)(m));
    FilterMap(SummaryOfMatch(text, want), Tagged, TaggedSummary, matches);
    SortMap(SummaryOfMatch(text, want), Preferred(text), PreferredSummary, Filter(Tagged, matches));
  }

  lemma BestBySummaries(text: Text, recordings: seq<Recording>, artist: string)
    ensures var want := text.artistForm(artist);
      Map(SummaryOfMatch(text, want), BestTagged(text, Matching(text, recordings, artist)))
        == BestSummaries(Map(Summarize(text, want), recordings))
  {
    hide Matching, Summarize, SummaryOfMatch, Preferred, Sort, Filter;
    var want := text.artistForm(artist);
    MatchingBySummaries(text, recordings, artist);
    SortedBySummaries(text, want, Matching(text, recordings, artist));
  }

  lemma {:induction false} FlattenPermutes(xs: seq<seq<Tag>>, ys: seq<seq<Tag>>)
    requires |xs| == |ys| && forall i :: 0 <= i < |xs| ==> multiset(xs[i]) == multiset(ys[i])
    ensures multiset(Flatten(xs)) == multiset(Flatten(ys))
  {
    if xs != [] {
      FlattenPermutes(xs[..|xs| - 1], ys[..|ys| - 1]);
    }
  }

  lemma SumUnordered()
    ensures Unordered(Sum) && Unordered(Larger)
  {
  }

  lemma SumBySummaries(text: Text, want: string, matches: seq<Match>)
    ensures SumOf(text, matches)
         == SortTags(Summed(Flatten(Map(SummaryTags(), Map(SummaryOfMatch(text, want), matches)))))
  {
    var xs, ys := Map(TagsIn(text), matches), Map(SummaryTags(), Map(SummaryOfMatch(text, want), matches));
    FlattenPermutes(xs, ys);
    SumUnordered();
    FoldedTagsPermute(Sum, Flatten(xs), Flatten(ys));
    StrongerOrders(Summed(Flatten(xs)));
    SortCanonical(Stronger, Summed(Flatten(xs)), Summed(Flatten(ys)));
  }

  ghost predicate DistinctSummaries(summaries: seq<Summary>)
  {
    forall a, b :: a in summaries && b in summaries && a != b ==> a.id != b.id
  }

  lemma SummaryIds(text: Text, want: string, recordings: seq<Recording>)
    requires DistinctIds(recordings)
    ensures DistinctSummaries(Map(Summarize(text, want), recordings))
  {
    hide Votes, TagsOf, SortTags, Credited;
    var summaries := Map(Summarize(text, want), recordings);
    forall a, b | a in summaries && b in summaries && a != b ensures a.id != b.id {
      var i :| 0 <= i < |summaries| && summaries[i] == a;
      var j :| 0 <= j < |summaries| && summaries[j] == b;
      assert recordings[i].id != recordings[j].id;
    }
  }

  lemma SummariesAreOrdered(summaries: seq<Summary>)
    requires DistinctSummaries(summaries)
    ensures Orders(PreferredSummary, summaries) && Orders(SummaryIdLess, summaries)
  {
    NamesAreOrdered();
    hide NameLess;
  }

  lemma BestPermutes(xs: seq<Summary>, ys: seq<Summary>)
    requires multiset(xs) == multiset(ys)
    requires DistinctSummaries(xs)
    ensures BestSummaries(xs) == BestSummaries(ys)
  {
    FilterPermutes(AcceptedSummary, xs, ys);
    var axs, ays := Filter(AcceptedSummary, xs), Filter(AcceptedSummary, ys);
    FilterPermutes(TaggedSummary, axs, ays);
    var txs, tys := Filter(TaggedSummary, axs), Filter(TaggedSummary, ays);
    FilterMembers(AcceptedSummary, xs);
    FilterMembers(TaggedSummary, axs);
    SummariesAreOrdered(txs);
    SortCanonical(PreferredSummary, txs, tys);
  }

  // The first answer, from the tagged search.
  lemma TaggedAnswerBySummaries(text: Text, artist: string, recordings: seq<Recording>)
    ensures var want := text.artistForm(artist);
      var best := BestTagged(text, Matching(text, recordings, artist));
      var summaries := BestSummaries(Map(Summarize(text, want), recordings));
      && (best == [] <==> summaries == [])
      && (best != [] ==>
            TrackOf(best[0], SumOf(text, best))
              == TrackOfSummary(summaries[0], SortTags(Summed(Flatten(Map(SummaryTags(), summaries))))))
  {
    var want := text.artistForm(artist);
    BestBySummaries(text, recordings, artist);
    SumBySummaries(text, want, BestTagged(text, Matching(text, recordings, artist)));
  }

  // The second answer, from the unrestricted search.
  lemma PlainAnswerBySummaries(text: Text, artist: string, recordings: seq<Recording>)
    ensures var want := text.artistForm(artist);
      var matches := Matching(text, recordings, artist);
      var summaries := Sort(SummaryIdLess, Filter(AcceptedSummary, Map(Summarize(text, want), recordings)));
      && (matches == [] <==> summaries == [])
      && (matches != [] ==> TrackOf(Sort(IdLess, matches)[0], []) == TrackOfSummary(summaries[0], []))
  {
    var want := text.artistForm(artist);
    MatchingBySummaries(text, recordings, artist);
    SortMap(SummaryOfMatch(text, want), IdLess, SummaryIdLess, Matching(text, recordings, artist));
  }

  // The main result: whatever order MusicBrainz lists recordings with distinct ids in, and
  // the tags and genres inside each, the lookup has the same outcome and the same track.
  lemma AnswerIgnoresServerOrder(text: Text, artist: string, tagged: Search, plain: Search,
                                 tagged': Search, plain': Search)
    requires tagged.Hits? && plain.Hits? && tagged'.Hits? && plain'.Hits?
    requires DistinctIds(tagged.recordings) && DistinctIds(plain.recordings)
    requires SameData(tagged.recordings, tagged'.recordings) && SameData(plain.recordings, plain'.recordings)
    ensures Answer(text, artist, tagged, plain) == Answer(text, artist, tagged', plain')
  {
    var want := text.artistForm(artist);
    var txs, tys := Map(Summarize(text, want), tagged.recordings), Map(Summarize(text, want), tagged'.recordings);
    SummariesPermute(text, want, tagged.recordings, tagged'.recordings);
    SummaryIds(text, want, tagged.recordings);
    BestPermutes(txs, tys);
    TaggedAnswerBySummaries(text, artist, tagged.recordings);
    TaggedAnswerBySummaries(text, artist, tagged'.recordings);

    SummariesPermute(text, want, plain.recordings, plain'.recordings);
    SummaryIds(text, want, plain.recordings);
    PlainPermutes(Map(Summarize(text, want), plain.recordings), Map(Summarize(text, want), plain'.recordings));
    PlainAnswerBySummaries(text, artist, plain.recordings);
    PlainAnswerBySummaries(text, artist, plain'.recordings);
  }

  lemma PlainPermutes(xs: seq<Summary>, ys: seq<Summary>)
    requires multiset(xs) == multiset(ys)
    requires DistinctSummaries(xs)
    ensures Sort(SummaryIdLess, Filter(AcceptedSummary, xs)) == Sort(SummaryIdLess, Filter(AcceptedSummary, ys))
  {
    FilterPermutes(AcceptedSummary, xs, ys);
    FilterMembers(AcceptedSummary, xs);
    SummariesAreOrdered(Filter(AcceptedSummary, xs));
    SortCanonical(SummaryIdLess, Filter(AcceptedSummary, xs), Filter(AcceptedSummary, ys));
  }

  // ---------------------------------------------------------------- which recordings, which votes

  ghost predicate DistinctMatches(matches: seq<Match>)
  {
    forall x, y :: x in matches && y in matches && x != y ==> x.rec.id != y.rec.id
  }

  lemma PreferredOrders(text: Text, matches: seq<Match>)
    requires DistinctMatches(matches)
    ensures Orders(Preferred(text), matches)
  {
    NamesAreOrdered();
    hide Votes, NameLess;
  }

  // A recording with a tag or a genre.
  predicate CarriesTags(m: Match) { m.rec.tags + m.rec.genres != [] }

  // More votes, or as many and the smaller id.
  predicate ComesFirst(text: Text, x: Match, y: Match)
  {
    || Votes(text, x.rec) > Votes(text, y.rec)
    || (Votes(text, x.rec) == Votes(text, y.rec) && NameLess(x.rec.id, y.rec.id))
  }

  lemma TaggedCarriesTags(m: Match)
    ensures Tagged(m) <==> CarriesTags(m)
  {
  }

  lemma PreferredComesFirst(text: Text, x: Match, y: Match)
    ensures Preferred(text)(x, y) <==> ComesFirst(text, x, y)
  {
    hide Votes, NameLess;
  }

  // The merged recordings are the top five by votes and then id of those that carry tags.
  lemma BestAreTheTopFive(text: Text, matches: seq<Match>, m: Match, b: Match)
    requires DistinctMatches(matches)
    requires b in BestTagged(text, matches)
    requires m in matches && CarriesTags(m) && m !in BestTagged(text, matches)
    ensures b in matches && CarriesTags(b) && ComesFirst(text, b, m)
    ensures |BestTagged(text, matches)| == 5
  {
    var tagged := Filter(Tagged, matches);
    FilterMembers(Tagged, matches);
    PreferredOrders(text, tagged);
    hide Preferred, Tagged, CarriesTags, ComesFirst, Sort, Filter, DistinctMatches, Orders, Take;
    TaggedCarriesTags(m);
    KeptBeforeCut(Preferred(text), tagged, MAX_MERGED, b, m);
    TaggedCarriesTags(b);
    PreferredComesFirst(text, b, m);
  }

  predicate Names(t: Track, m: Match)
  {
    t.id == m.rec.id && t.title == m.rec.title && t.artist == m.artist.name && t.artistId == m.artist.id
  }

  lemma IdLessOrders(matches: seq<Match>)
    requires DistinctMatches(matches)
    ensures Orders(IdLess, matches)
  {
    NamesAreOrdered();
    hide NameLess;
  }

  // Votes are the counts of the recording's merged tags, added up.
  lemma {:induction false} VotesAreCounts(tags: seq<Tag>)
    ensures TotalVotes(tags) == SumInts(Map((t: Tag) => t.count, tags))
  {
    var count := (t: Tag) => t.count;
    if tags != [] {
      VotesAreCounts(tags[..|tags| - 1]);
      assert Map(count, tags)[..|tags| - 1] == Map(count, tags[..|tags| - 1]);
    }
  }

  // A match is a result that scores at least 90, with the artist its credit names.
  lemma MatchesAreAccepted(text: Text, recordings: seq<Recording>, artist: string, m: Match)
    ensures m in Matching(text, recordings, artist) <==>
            m.rec in recordings && m.rec.score >= 90
            && Credited(text, m.rec.credit, text.artistForm(artist)) == Some(m.artist)
  {
    var want := text.artistForm(artist);
    var kept := Filter(Accepts(text, want), recordings);
    FilterMembers(Accepts(text, want), recordings);
    hide Credited, Filter;
    if m.rec in kept {
      var i :| 0 <= i < |kept| && kept[i] == m.rec;
      assert Map(ToMatch(text, want), kept)[i] == ToMatch(text, want)(m.rec);
    }
    if m in Matching(text, recordings, artist) {
      var i :| 0 <= i < |kept| && ToMatch(text, want)(kept[i]) == m;
      assert kept[i] in kept;
    }
  }

  lemma FirstOfBest(text: Text, matches: seq<Match>)
    requires DistinctMatches(matches)
    ensures BestTagged(text, matches) == [] <==> forall m :: m in matches ==> !CarriesTags(m)
    ensures BestTagged(text, matches) != [] ==>
      var m := BestTagged(text, matches)[0];
      m in matches && CarriesTags(m) && forall y :: y in matches && CarriesTags(y) && y != m ==> ComesFirst(text, m, y)
  {
    var tagged := Filter(Tagged, matches);
    FilterMembers(Tagged, matches);
    PreferredOrders(text, tagged);
    hide Preferred, Orders, Tagged, CarriesTags, ComesFirst, Filter, Sort, DistinctMatches;
    forall m ensures Tagged(m) <==> CarriesTags(m) {
      TaggedCarriesTags(m);
    }
    if tagged != [] {
      assert tagged[0] in tagged;
      SortedFirst(Preferred(text), tagged);
      forall y | y in tagged && y != BestTagged(text, matches)[0]
        ensures ComesFirst(text, BestTagged(text, matches)[0], y)
      {
        PreferredComesFirst(text, BestTagged(text, matches)[0], y);
      }
    }
  }

  // The recording that names the track is the one with the most votes, and of those the one
  // with the smallest id, if any match carries tags; otherwise it is the match of the plain
  // search with the smallest id, and the track has no tags; only without any it is not found.
  lemma BestMatchNamesTheTrack(text: Text, artist: string, tagged: seq<Recording>, plain: seq<Recording>)
      returns (m: Match)
    requires DistinctMatches(Matching(text, tagged, artist)) && DistinctMatches(Matching(text, plain, artist))
    ensures var r := Answer(text, artist, Hits(tagged), Hits(plain));
      var first, second := Matching(text, tagged, artist), Matching(text, plain, artist);
      if exists x :: x in first && CarriesTags(x) then
        && r.Found? && Names(r.track, m) && m in first && CarriesTags(m)
        && (forall y :: y in first && CarriesTags(y) && y != m ==> ComesFirst(text, m, y))
        && r.track.recordingTags == SumOf(text, BestTagged(text, first))
      else if second == [] then r.NotFound?
      else
        && r.Found? && Names(r.track, m) && r.track.tags == [] && m in second
        && forall y :: y in second && y != m ==> NameLess(m.rec.id, y.rec.id)
  {
    hide Matching, BestTagged, SumOf, CarriesTags, ComesFirst, NameLess, DistinctMatches;
    var first, second := Matching(text, tagged, artist), Matching(text, plain, artist);
    FirstOfBest(text, first);
    if BestTagged(text, first) != [] {
      m := BestTagged(text, first)[0];
    } else {
      m := Match(Recording("", 0, "", [], [], []), ArtistRef("", ""));
      if second != [] {
        m := SmallestId(second);
      }
    }
  }

  lemma SmallestId(matches: seq<Match>) returns (m: Match)
    requires DistinctMatches(matches) && matches != []
    ensures m == Sort(IdLess, matches)[0] && m in matches
    ensures forall y :: y in matches && y != m ==> NameLess(m.rec.id, y.rec.id)
  {
    IdLessOrders(matches);
    SortedFirst(IdLess, matches);
    hide NameLess, Orders;
    m := Sort(IdLess, matches)[0];
  }

  // No vote is lost or counted twice between the recordings and the track's tags.
  lemma VotesAreConserved(text: Text, matches: seq<Match>)
    ensures TotalVotes(SumOf(text, matches)) == Fold((n: int, m: Match) => n + Votes(text, m.rec), 0, matches)
  {
    var entries := Flatten(Map(TagsIn(text), matches));
    NamesInFlatten(text, matches);
    FoldTotal(entries);
    TotalPermutes(SumOf(text, matches), Summed(entries));
    VotesInFlatten(text, matches, (n: int, m: Match) => n + Votes(text, m.rec));
  }

  lemma {:induction false} NamesInFlatten(text: Text, matches: seq<Match>)
    ensures forall t :: t in Flatten(Map(TagsIn(text), matches)) ==> t.name != ""
  {
    if matches != [] {
      var last := |matches| - 1;
      NamesInFlatten(text, matches[..last]);
      assert matches[..last + 1] == matches;
      FlattenSnoc(TagsIn(text), matches, last);
      FoldNamesFolded(text, matches[last].rec.tags + matches[last].rec.genres);
    }
  }

  lemma {:induction false} VotesInFlatten(text: Text, matches: seq<Match>, add: (int, Match) -> int)
    requires forall n, m :: add(n, m) == n + Votes(text, m.rec)
    ensures TotalVotes(Flatten(Map(TagsIn(text), matches))) == Fold(add, 0, matches)
  {
    if matches != [] {
      var last := |matches| - 1;
      VotesInFlatten(text, matches[..last], add);
      assert matches[..last + 1] == matches;
      FlattenSnoc(TagsIn(text), matches, last);
      TotalAppend(Flatten(Map(TagsIn(text), matches[..last])), TagsOf(text, matches[last].rec));
    }
  }

  // ---------------------------------------------------------------- what a shown count is

  // The votes that tags give a name.
  function NamedCount(tags: seq<Tag>, name: string): int
  {
    if tags == [] then 0 else
      NamedCount(tags[..|tags| - 1], name) + if tags[|tags| - 1].name == name then tags[|tags| - 1].count else 0
  }

  lemma {:induction false} NamedAppend(xs: seq<Tag>, ys: seq<Tag>, name: string)
    ensures NamedCount(xs + ys, name) == NamedCount(xs, name) + NamedCount(ys, name)
  {
    if ys == [] {
      assert xs + ys == xs;
    } else {
      NamedAppend(xs, ys[..|ys| - 1], name);
      assert (xs + ys)[..|xs + ys| - 1] == xs + ys[..|ys| - 1];
    }
  }

  lemma {:induction false} NamedInDistinct(tags: seq<Tag>, name: string)
    requires DistinctNames(tags)
    ensures !Listed(tags, name) ==> NamedCount(tags, name) == 0
    ensures forall t :: t in tags && t.name == name ==> NamedCount(tags, name) == t.count
  {
    if tags != [] {
      var front, last := tags[..|tags| - 1], tags[|tags| - 1];
      NamedInDistinct(front, name);
      assert forall t :: t in tags <==> t in front || t == last;
      if last.name == name {
        assert !Listed(front, name);
      } else {
        assert Listed(front, name) ==> Listed(tags, name);
      }
    }
  }

  lemma ListedAppend(xs: seq<Tag>, ys: seq<Tag>, name: string)
    ensures Listed(xs + ys, name) <==> Listed(xs, name) || Listed(ys, name)
  {
    assert forall t :: t in xs + ys <==> t in xs || t in ys;
  }

  lemma ListedFew(t: Tag, name: string)
    ensures !Listed([], name) && (Listed([t], name) <==> t.name == name)
  {
    assert t in [t];
  }

  lemma CombiningAdds(m: map<string, int>, t: Tag)
    ensures Combining(Sum)(m, t) ==
            if t.name == "" then m else m[t.name := (if t.name in m then m[t.name] else 0) + t.count]
  {
    if t.name in m {
      assert Sum(m[t.name], t.count) == m[t.name] + t.count;
    }
  }

  lemma {:induction false} CombinedSum(entries: seq<Tag>, name: string)
    requires name != ""
    ensures var m := Fold(Combining(Sum), map[], entries);
      && (name in m <==> Listed(entries, name))
      && NamedCount(entries, name) == if name in m then m[name] else 0
  {
    if entries == [] {
      ListedFew(Tag(name, 0), name);
    } else {
      hide Listed;
      var front, last := entries[..|entries| - 1], entries[|entries| - 1];
      CombinedSum(front, name);
      assert entries == front + [last];
      ListedAppend(front, [last], name);
      ListedFew(last, name);
      CombiningAdds(Fold(Combining(Sum), map[], front), last);
      hide Combining;
      assert Fold(Combining(Sum), map[], entries) == Combining(Sum)(Fold(Combining(Sum), map[], front), last);
    }
  }

  // A summed list shows exactly the names given, each with all of its votes.
  lemma SummedShows(entries: seq<Tag>, name: string)
    requires name != ""
    ensures Listed(Summed(entries), name) <==> Listed(entries, name)
    ensures forall t :: t in Summed(entries) && t.name == name ==> t.count == NamedCount(entries, name)
  {
    var tags := Summed(entries);
    FoldView(Sum, entries);
    CombinedSum(entries, name);
    ViewHas(tags, name);
    hide Summed, View, NamedCount;
    if Listed(tags, name) {
      var t :| t in tags && t.name == name;
      var i :| 0 <= i < |tags| && tags[i] == t;
    }
  }

  // The highest count that the recording's tags and genres give a name, or zero.
  ghost predicate Highest(text: Text, rec: Recording, name: string, h: int)
  {
    if GivesName(text, rec, name) then Given(text, rec.tags + rec.genres, name, h) else h == 0
  }

  ghost predicate GivesName(text: Text, rec: Recording, name: string)
  {
    exists e :: e in rec.tags + rec.genres && text.fold(e.name) == name
  }

  lemma RecordingCount(text: Text, rec: Recording, name: string, h: int)
    requires name != "" && Highest(text, rec, name, h)
    ensures NamedCount(TagsOf(text, rec), name) == h
    ensures Listed(TagsOf(text, rec), name) <==> GivesName(text, rec, name)
  {
    var tags := TagsOf(text, rec);
    MergedKeepsHighest(text, rec.tags + rec.genres);
    NamedInDistinct(tags, name);
    hide Merged, NamedCount;
    if Listed(tags, name) {
      var t :| t in tags && t.name == name;
      assert Given(text, rec.tags + rec.genres, name, t.count);
    }
  }

  lemma {:induction false} MatchesCount(text: Text, matches: seq<Match>, name: string, hs: seq<int>)
    requires name != "" && |hs| == |matches|
    requires forall i :: 0 <= i < |hs| ==> Highest(text, matches[i].rec, name, hs[i])
    ensures NamedCount(Flatten(Map(TagsIn(text), matches)), name) == SumInts(hs)
  {
    if matches != [] {
      hide Highest, TagsOf;
      var last := |matches| - 1;
      MatchesCount(text, matches[..last], name, hs[..last]);
      RecordingCount(text, matches[last].rec, name, hs[last]);
      assert matches[..last + 1] == matches;
      FlattenSnoc(TagsIn(text), matches, last);
      hide Flatten, NamedCount, Map;
      NamedAppend(Flatten(Map(TagsIn(text), matches[..last])), TagsOf(text, matches[last].rec), name);
    }
  }

  lemma {:induction false} MatchesNames(text: Text, matches: seq<Match>, name: string, hs: seq<int>)
    requires name != "" && |hs| == |matches|
    requires forall i :: 0 <= i < |hs| ==> Highest(text, matches[i].rec, name, hs[i])
    ensures Listed(Flatten(Map(TagsIn(text), matches)), name) <==>
            exists i :: 0 <= i < |matches| && GivesName(text, matches[i].rec, name)
  {
    if matches == [] {
      ListedFew(Tag(name, 0), name);
    } else {
      hide Highest, GivesName, TagsOf, Listed;
      var last := |matches| - 1;
      MatchesNames(text, matches[..last], name, hs[..last]);
      RecordingCount(text, matches[last].rec, name, hs[last]);
      assert matches[..last + 1] == matches;
      FlattenSnoc(TagsIn(text), matches, last);
      hide Flatten, Map;
      ListedAppend(Flatten(Map(TagsIn(text), matches[..last])), TagsOf(text, matches[last].rec), name);
      SomeMatchGives(text, matches, name);
    }
  }

  lemma SomeMatchGives(text: Text, matches: seq<Match>, name: string)
    requires matches != []
    ensures var last := |matches| - 1;
      (exists i :: 0 <= i < |matches| && GivesName(text, matches[i].rec, name)) <==>
      (exists i :: 0 <= i < last && GivesName(text, matches[..last][i].rec, name))
        || GivesName(text, matches[last].rec, name)
  {
    hide GivesName;
    var last := |matches| - 1;
    assert forall i :: 0 <= i < last ==> matches[..last][i] == matches[i];
    if i :| 0 <= i < |matches| && GivesName(text, matches[i].rec, name) {
      assert i < last ==> GivesName(text, matches[..last][i].rec, name);
    }
    if i :| 0 <= i < last && GivesName(text, matches[..last][i].rec, name) {
      assert GivesName(text, matches[i].rec, name);
    }
  }

  // The counts and names a track shows: a name is shown exactly if a tag or genre of a merged
  // recording folds to it, and its count is the sum, over the merged recordings, of the highest
  // count that each of them gives it.
  lemma ShownCounts(text: Text, matches: seq<Match>, name: string, hs: seq<int>)
    requires name != "" && |hs| == |matches|
    requires forall i :: 0 <= i < |hs| ==> Highest(text, matches[i].rec, name, hs[i])
    ensures Listed(SumOf(text, matches), name) <==>
            exists i :: 0 <= i < |matches| && GivesName(text, matches[i].rec, name)
    ensures forall t :: t in SumOf(text, matches) && t.name == name ==> t.count == SumInts(hs)
  {
    var entries := Flatten(Map(TagsIn(text), matches));
    MatchesCount(text, matches, name, hs);
    MatchesNames(text, matches, name, hs);
    SummedShows(entries, name);
    hide Summed, NamedCount, Highest, GivesName;
    PermutationMembers(Summed(entries), SumOf(text, matches));
  }

  // What ArtistTags returns for an artist's tags and genres.
  function TagsOfArtist(text: Text, tags: seq<Tag>, genres: seq<Tag>): seq<Tag>
  {
    SortTags(Merged(text, tags + genres))
  }

  // The order of an artist's tags and genres, and which list names a tag, cannot be seen.
  lemma ArtistTagsIgnoreOrder(text: Text, tags: seq<Tag>, genres: seq<Tag>, tags': seq<Tag>, genres': seq<Tag>)
    requires multiset(tags + genres) == multiset(tags' + genres')
    ensures TagsOfArtist(text, tags, genres) == TagsOfArtist(text, tags', genres')
  {
    MergedPermutes(text, tags + genres, tags' + genres');
    StrongerOrders(Merged(text, tags + genres));
    SortCanonical(Stronger, Merged(text, tags + genres), Merged(text, tags' + genres'));
  }

  // Every track the client produces lists the names of its recording tags and nothing else.
  ghost predicate FromClient(t: Track)
  {
    t.tags == TagNames(t.recordingTags) && t.artistTags == [] && t.tagSource == NoTags && !t.cached
  }

  lemma AnswersAreFromClient(text: Text, artist: string, tagged: Search, plain: Search)
    ensures var r := Answer(text, artist, tagged, plain);
      r.Found? ==> FromClient(r.track) && DistinctNames(r.track.recordingTags)
  {
    var r := Answer(text, artist, tagged, plain);
    if tagged.Hits? {
      var best := BestTagged(text, Matching(text, tagged.recordings, artist));
      FoldView(Sum, Flatten(Map(TagsIn(text), best)));
      SortedNamesDistinct(Summed(Flatten(Map(TagsIn(text), best))));
    }
  }
}
