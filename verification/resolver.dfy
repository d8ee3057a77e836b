// Which tags describe a song: names made comparable (internal/tags/tags.go), recording and
// artist tags chosen (internal/provider/resolver.go) and turned into a weighted profile
// (internal/api/handlers.go).
module TagNormalizer {
  import opened Collections

  type Cleaner = string -> string

  // One line of the synonym table, cut at its colon, or a line without one.
  datatype SynonymLine = Synonyms(canonical: string, variants: seq<string>) | NoColon

  datatype Result<+T> = Ok(value: T) | BadLine(line: nat)

  // clean lower-cases, turns separators into spaces and collapses white space; an arbitrary
  // function here.
  datatype Normalizer = Normalizer(clean: Cleaner, synonyms: map<string, string>, stop: set<string>)

  function Canonical(n: Normalizer, raw: string): string
  {
    var tag := n.clean(raw);
    if tag in n.synonyms then n.synonyms[tag] else tag
  }

  predicate Digits(s: string, count: nat) { |s| >= count && forall i :: 0 <= i < count ==> '0' <= s[i] <= '9' }

  // ^'?\d{2}(\d{2})?'?s?$
  predicate IsYear(tag: string)
  {
    var s := if tag != "" && tag[0] == '\'' then tag[1..] else tag;
    var endings := {"", "'", "s", "'s"};
    (Digits(s, 2) && s[2..] in endings) || (Digits(s, 4) && s[4..] in endings)
  }

  function Normalize(n: Normalizer, raw: string): Option<string>
  {
    var tag := Canonical(n, raw);
    if tag == "" || IsYear(tag) || tag in n.stop then None else Some(tag)
  }

  // ---------------------------------------------------------------- first appearances

  function Unique(xs: seq<string>): seq<string>
  {
    if xs == [] then [] else
      var rest := Unique(xs[..|xs| - 1]);
      if xs[|xs| - 1] in rest then rest else rest + [xs[|xs| - 1]]
  }

  // Unique keeps every member once, in the order of first appearance: what it keeps of a
  // prefix comes first.
  lemma {:induction false} UniqueKeepsFirsts(xs: seq<string>, k: nat)
    requires k <= |xs|
    ensures Distinct(Unique(xs)) && forall x :: x in Unique(xs) <==> x in xs
    ensures Unique(xs[..k]) <= Unique(xs)
  {
    if xs == [] {
    } else if k == |xs| {
      UniqueKeepsFirsts(xs[..k - 1], k - 1);
      assert xs[..k] == xs == xs[..k - 1] + [xs[k - 1]];
    } else {
      UniqueKeepsFirsts(xs[..|xs| - 1], k);
      assert xs[..|xs| - 1][..k] == xs[..k];
      assert xs == xs[..|xs| - 1] + [xs[|xs| - 1]];
    }
  }

  function Names(n: Normalizer, raw: seq<string>): seq<string>
  {
    if raw == [] then [] else
      var rest := Names(n, raw[..|raw| - 1]);
      var name := Normalize(n, raw[|raw| - 1]);
      if name.Some? then rest + [name.value] else rest
  }

  function Usable(n: Normalizer, raw: seq<string>): nat { |Unique(Names(n, raw))| }

  method NormalizeAll(n: Normalizer, raw: seq<string>) returns (out: seq<string>)
    ensures out == Unique(Names(n, raw))
  {
    var seen: set<string> := {};
    out := [];
    for i := 0 to |raw|
      invariant out == Unique(Names(n, raw[..i])) && forall x :: x in seen <==> x in out
    {
      assert raw[..i + 1][..i] == raw[..i];
      ghost var names := Names(n, raw[..i]);
      var tag := Normalize(n, raw[i]);
      if tag.None? {
        continue;
      }
      assert (names + [tag.value])[..|names|] == names;
      if tag.value in seen {
        continue;
      }
      seen := seen + {tag.value};
      out := out + [tag.value];
    }
    assert raw[..|raw|] == raw;
  }

  // ---------------------------------------------------------------- building the tables

  // What one variant of a line does to the table.
  function AddVariant(clean: Cleaner, canonical: string): (map<string, string>, string) -> map<string, string>
  {
    (table: map<string, string>, raw: string) =>
      if clean(raw) != "" && clean(raw) != canonical then table[clean(raw) := canonical] else table
  }

  function TableOf(clean: Cleaner, lines: seq<SynonymLine>): map<string, string>
  {
    if lines == [] then map[] else
      var table, line := TableOf(clean, lines[..|lines| - 1]), lines[|lines| - 1];
      if line.NoColon? then table else Fold(AddVariant(clean, clean(line.canonical)), table, line.variants)
  }

  predicate GoodLine(clean: Cleaner, line: SynonymLine) { line.Synonyms? && clean(line.canonical) != "" }

  method New(clean: Cleaner, lines: seq<SynonymLine>, stoplist: seq<string>) returns (r: Result<Normalizer>)
    ensures r.Ok? <==> forall i :: 0 <= i < |lines| ==> GoodLine(clean, lines[i])
    ensures r.BadLine? ==> r.line < |lines| && !GoodLine(clean, lines[r.line])
    ensures r.BadLine? ==> forall i :: 0 <= i < r.line ==> GoodLine(clean, lines[i])
    ensures r.Ok? ==> r.value.clean == clean && r.value.synonyms == TableOf(clean, lines)
    ensures r.Ok? ==> r.value.stop == set line | line in stoplist :: Canonical(r.value, line)
  {
    var table: map<string, string> := map[];
    for i := 0 to |lines|
      invariant table == TableOf(clean, lines[..i])
      invariant forall j :: 0 <= j < i ==> GoodLine(clean, lines[j])
    {
      assert lines[..i + 1][..i] == lines[..i];
      if lines[i].NoColon? {
        return BadLine(i);
      }
      var canonical := clean(lines[i].canonical);
      if canonical == "" {
        return BadLine(i);
      }
      var variants := lines[i].variants;
      ghost var before := table;
      for j := 0 to |variants|
        invariant table == Fold(AddVariant(clean, canonical), before, variants[..j])
      {
        assert variants[..j + 1][..j] == variants[..j];
        var v := clean(variants[j]);
        if v != "" && v != canonical {
          table := table[v := canonical];
        }
      }
      assert variants[..|variants|] == variants;
    }
    assert lines[..|lines|] == lines;
    var n := Normalizer(clean, table, {});
    var stop: set<string> := {};
    for i := 0 to |stoplist|
      invariant stop == set line | line in stoplist[..i] :: Canonical(n, line)
    {
      assert stoplist[..i + 1] == stoplist[..i] + [stoplist[i]];
      stop := stop + {Canonical(n, stoplist[i])};
    }
    assert stoplist[..|stoplist|] == stoplist;
    assert forall line :: Canonical(n, line) == Canonical(n.(stop := stop), line);
    return Ok(n.(stop := stop));
  }

  // Names in the table are clean, and no name stands for itself.
  ghost predicate TableOk(clean: Cleaner, table: map<string, string>)
  {
    forall v :: v in table ==> clean(v) == v && v != "" && clean(table[v]) == table[v] && table[v] != v
  }

  lemma {:induction false} VariantsKeepTableOk(clean: Cleaner, canonical: string, table: map<string, string>,
                                               variants: seq<string>)
    requires forall x :: clean(clean(x)) == clean(x)
    requires TableOk(clean, table) && clean(canonical) == canonical
    ensures TableOk(clean, Fold(AddVariant(clean, canonical), table, variants))
  {
    if variants != [] {
      VariantsKeepTableOk(clean, canonical, table, variants[..|variants| - 1]);
    }
  }

  lemma {:induction false} BuiltTableOk(clean: Cleaner, lines: seq<SynonymLine>)
    requires forall x :: clean(clean(x)) == clean(x)
    ensures TableOk(clean, TableOf(clean, lines))
  {
    if lines != [] {
      var line := lines[|lines| - 1];
      BuiltTableOk(clean, lines[..|lines| - 1]);
      if line.Synonyms? {
        VariantsKeepTableOk(clean, clean(line.canonical), TableOf(clean, lines[..|lines| - 1]), line.variants);
      }
    }
  }

  // Canonical forms are final exactly when no canonical name of the table is itself listed as
  // a variant on another line: the lookup follows one synonym, not a chain.
  lemma CanonicalIsFinal(clean: Cleaner, lines: seq<SynonymLine>, stop: set<string>)
    requires forall x :: clean(clean(x)) == clean(x)
    ensures var n := Normalizer(clean, TableOf(clean, lines), stop);
      (forall raw :: Canonical(n, Canonical(n, raw)) == Canonical(n, raw)) <==>
      forall v :: v in n.synonyms ==> n.synonyms[v] !in n.synonyms
  {
    var n := Normalizer(clean, TableOf(clean, lines), stop);
    BuiltTableOk(clean, lines);
    if forall raw :: Canonical(n, Canonical(n, raw)) == Canonical(n, raw) {
      forall v | v in n.synonyms ensures n.synonyms[v] !in n.synonyms {
        assert Canonical(n, v) == n.synonyms[v];
        assert Canonical(n, Canonical(n, v)) == Canonical(n, v);
      }
    }
  }

  // A tag is ignored exactly if its canonical form is empty, a year, or that of a line of the
  // stop list, however either is spelled.
  lemma IgnoredTags(n: Normalizer, stoplist: seq<string>, raw: string)
    requires n.stop == set line | line in stoplist :: Canonical(n, line)
    ensures Normalize(n, raw).None? <==>
            || Canonical(n, raw) == "" || IsYear(Canonical(n, raw))
            || exists line :: line in stoplist && Canonical(n, line) == Canonical(n, raw)
    ensures forall tag :: Normalize(n, raw) == Some(tag) ==> tag == Canonical(n, raw)
  {
    hide IsYear;
    if line :| line in stoplist && Canonical(n, line) == Canonical(n, raw) {
      assert Canonical(n, raw) in n.stop;
    }
  }

  // The line lists v as another spelling of its canonical name.
  ghost predicate Lists(clean: Cleaner, line: SynonymLine, v: string)
  {
    line.Synonyms? && v != "" && v != clean(line.canonical) && exists raw :: raw in line.variants && clean(raw) == v
  }

  lemma {:induction false} VariantsLookup(clean: Cleaner, canonical: string, table: map<string, string>,
                                          variants: seq<string>, v: string)
    ensures var t := Fold(AddVariant(clean, canonical), table, variants);
      if v != "" && v != canonical && exists raw :: raw in variants && clean(raw) == v then v in t && t[v] == canonical
      else (v in t <==> v in table) && (v in t ==> t[v] == table[v])
  {
    if variants != [] {
      var last := |variants| - 1;
      VariantsLookup(clean, canonical, table, variants[..last], v);
      assert forall raw :: raw in variants <==> raw in variants[..last] || raw == variants[last];
    }
  }

  lemma TableNext(clean: Cleaner, lines: seq<SynonymLine>, last: nat, v: string)
    requires |lines| == last + 1
    ensures var t, before := TableOf(clean, lines), TableOf(clean, lines[..last]);
      if Lists(clean, lines[last], v) then v in t && t[v] == clean(lines[last].canonical)
      else (v in t <==> v in before) && (v in t ==> t[v] == before[v])
  {
    if lines[last].Synonyms? {
      VariantsLookup(clean, clean(lines[last].canonical), TableOf(clean, lines[..last]), lines[last].variants, v);
    }
  }

  // The last line that lists a spelling decides what it stands for.
  lemma {:induction false} LastLineDecides(clean: Cleaner, lines: seq<SynonymLine>, v: string, i: nat)
    requires i < |lines| && Lists(clean, lines[i], v)
    requires forall k :: i < k < |lines| ==> !Lists(clean, lines[k], v)
    ensures v in TableOf(clean, lines) && TableOf(clean, lines)[v] == clean(lines[i].canonical)
  {
    var last := |lines| - 1;
    TableNext(clean, lines, last, v);
    if i < last {
      LastLineDecides(clean, lines[..last], v, i);
    }
  }

  // A spelling that no line lists stands for itself.
  lemma {:induction false} UnlistedIsUnknown(clean: Cleaner, lines: seq<SynonymLine>, v: string)
    requires forall i :: 0 <= i < |lines| ==> !Lists(clean, lines[i], v)
    ensures v !in TableOf(clean, lines)
  {
    if lines != [] {
      UnlistedIsUnknown(clean, lines[..|lines| - 1], v);
      TableNext(clean, lines, |lines| - 1, v);
    }
  }

  // A tag's canonical form is the canonical name of the last line that lists its clean form, and
  // its clean form if no line does.
  lemma CanonicalIfListed(clean: Cleaner, lines: seq<SynonymLine>, stop: set<string>, raw: string, i: nat)
    requires i < |lines| && Lists(clean, lines[i], clean(raw))
    requires forall k :: i < k < |lines| ==> !Lists(clean, lines[k], clean(raw))
    ensures Canonical(Normalizer(clean, TableOf(clean, lines), stop), raw) == clean(lines[i].canonical)
  {
    hide TableOf, Lists;
    LastLineDecides(clean, lines, clean(raw), i);
  }

  lemma CanonicalIfUnlisted(clean: Cleaner, lines: seq<SynonymLine>, stop: set<string>, raw: string)
    requires forall i :: 0 <= i < |lines| ==> !Lists(clean, lines[i], clean(raw))
    ensures Canonical(Normalizer(clean, TableOf(clean, lines), stop), raw) == clean(raw)
  {
    hide TableOf, Lists;
    UnlistedIsUnknown(clean, lines, clean(raw));
  }

  // An apostrophe or none, two or four digits, and at most an apostrophe and an s.
  predicate YearShape(apostrophe: string, digits: string, ending: string)
  {
    && apostrophe in {"", "'"}
    && |digits| in {2, 4} && (forall i :: 0 <= i < |digits| ==> '0' <= digits[i] <= '9')
    && ending in {"", "'", "s", "'s"}
  }

  lemma YearShapeIsYear(apostrophe: string, digits: string, ending: string)
    requires YearShape(apostrophe, digits, ending)
    ensures IsYear(apostrophe + digits + ending)
  {
    var tag := apostrophe + digits + ending;
    if apostrophe == "" {
      assert tag == digits + ending && tag[0] == digits[0];
      assert tag[|digits|..] == ending;
    } else {
      assert tag[0] == '\'' && tag[1..] == digits + ending;
      assert tag[1..][|digits|..] == ending;
    }
  }

  // Years and decades are the tags of that shape.
  lemma YearsHaveTheShape(tag: string) returns (apostrophe: string, digits: string, ending: string)
    ensures IsYear(tag) ==> YearShape(apostrophe, digits, ending) && tag == apostrophe + digits + ending
  {
    var marked := tag != "" && tag[0] == '\'';
    var s := if marked then tag[1..] else tag;
    apostrophe := if marked then "'" else "";
    var n := if Digits(s, 4) && s[4..] in {"", "'", "s", "'s"} then 4 else 2;
    if n <= |s| {
      digits, ending := s[..n], s[n..];
      assert s == digits + ending;
    } else {
      digits, ending := "", "";
    }
  }
}

module Resolving {
  import opened Collections
  import opened MusicBrainz
  import opened TagNormalizer
  import R = RateLimiting
  import S = Similarity
  import T = TrackSearch

  const MIN_RECORDING_TAGS := 3
  const LOW_DATA_TAGS := 3
  const ARTIST_WEIGHT := 0.5

  // Go errors: the sentinels of the provider and context packages, an UpstreamError with the
  // transport error it unwraps to, an error wrapped in a message, and anything else.
  datatype Error =
    | NotFound
    | Canceled
    | DeadlineExceeded
    | Upstream(status: int, cause: Option<Error>)
    | Wrapped(message: string, inner: Error)
    | Other(message: string)

  datatype Outcome<+A> = Success(value: A) | Failure(error: Error)

  // errors.Is.
  predicate Is(e: Error, target: Error)
  {
    || e == target
    || (e.Upstream? && e.cause.Some? && Is(e.cause.value, target))
    || (e.Wrapped? && Is(e.inner, target))
  }

  predicate MatchesContext(e: Error) { Is(e, Canceled) || Is(e, DeadlineExceeded) }

  // ---------------------------------------------------------------- choosing the tags

  lemma UniqueEmpty()
    ensures Unique([]) == []
  {
  }

  lemma UniqueNext(xs: seq<string>, x: string)
    ensures Unique(xs + [x]) == if x in Unique(xs) then Unique(xs) else Unique(xs) + [x]
  {
    assert (xs + [x])[..|xs|] == xs;
  }

  method UnionNames(first: seq<string>, second: seq<string>) returns (out: seq<string>)
    ensures out == Unique(first + second)
  {
    hide Unique;
    var seen: set<string> := {};
    out := [];
    assert out == Unique([]) by { UniqueEmpty(); }
    var lists := [first, second];
    ghost var done: seq<string> := [];
    for l := 0 to 2
      invariant done == if l == 0 then [] else if l == 1 then first else first + second
      invariant out == Unique(done) && forall x :: x in seen <==> x in out
    {
      var list := lists[l];
      ghost var before := done;
      for i := 0 to |list|
        invariant done == before + list[..i]
        invariant out == Unique(done) && forall x :: x in seen <==> x in out
      {
        UniqueNext(done, list[i]);
        assert before + list[..i + 1] == done + [list[i]];
        done := done + [list[i]];
        if list[i] in seen {
          continue;
        }
        seen := seen + {list[i]};
        out := out + [list[i]];
      }
      assert list[..|list|] == list;
    }
  }

  function UsableTags(n: Normalizer, tags: seq<Tag>): nat { Usable(n, T.TagNames(tags)) }

  // What Resolver.SearchTrack returns, by the cases its documentation names.
  function Resolve(n: Normalizer, found: Outcome<Track>, artists: string -> Outcome<seq<Tag>>): Outcome<Track>
  {
    if found.Failure? then found else
    var names := T.TagNames(found.value.recordingTags);
    var source := if Usable(n, names) > 0 then RecordingTags else NoTags;
    var own := found.value.(artistTags := [], tags := names, tagSource := source);
    if Usable(n, names) >= MIN_RECORDING_TAGS || own.artistId == "" then Success(own) else
    match artists(own.artistId)
    case Failure(e) =>
      if own.tagSource.RecordingTags? && !MatchesContext(e) then Success(own) else Failure(e)
    case Success(tags) =>
      if UsableTags(n, tags) == 0 then Success(own)
      else Success(own.(artistTags := tags, tags := Unique(names + T.TagNames(tags)),
                        tagSource := if own.tagSource.RecordingTags? then MixedTags else ArtistTags))
  }

  // When the resolver fails, and which artist tags it adds, for every track and every tagger:
  // the artist is asked exactly below three usable recording tags, what it says is used if
  // any of it is usable, and its failure is the resolver's exactly if nothing else is known or
  // the error matches Canceled or DeadlineExceeded. Nothing else of the track changes.
  lemma WhenArtistTagsCount(n: Normalizer, track: Track, artists: string -> Outcome<seq<Tag>>)
    ensures var r, usable := Resolve(n, Success(track), artists), UsableTags(n, track.recordingTags);
      var asked := usable < 3 && track.artistId != "";
      && (forall e :: r == Failure(e) <==>
           asked && artists(track.artistId) == Failure(e) && (usable == 0 || MatchesContext(e)))
      && (r.Success? ==>
           && (r.value.artistTags != [] <==>
                asked && artists(track.artistId).Success? && UsableTags(n, artists(track.artistId).value) > 0)
           && (r.value.artistTags != [] ==> r.value.artistTags == artists(track.artistId).value)
           && r.value == track.(tags := r.value.tags, artistTags := r.value.artistTags, tagSource := r.value.tagSource))
  {
    hide Unique, Names;
    NothingIsUsable(n);
  }

  lemma NothingIsUsable(n: Normalizer)
    ensures UsableTags(n, []) == 0
  {
    assert T.TagNames([]) == [];
  }

  // ---------------------------------------------------------------- a thin answer beats none

  // The intent of the fallback: while the caller is there, usable recording tags are an answer
  // whatever becomes of the artist lookup.
  predicate KeepsThinAnswer(n: Normalizer, track: Track, artists: string -> Outcome<seq<Tag>>, ctxEnded: bool)
  {
    !ctxEnded && UsableTags(n, track.recordingTags) > 0 ==> Resolve(n, Success(track), artists).Success?
  }

  // The intent fails exactly for a caller that is there, whose thinly tagged track has an
  // artist to ask about, when the error of that lookup matches Canceled or DeadlineExceeded.
  lemma ThinAnswerIsLostExactly(n: Normalizer, track: Track, artists: string -> Outcome<seq<Tag>>, ctxEnded: bool)
    ensures !KeepsThinAnswer(n, track, artists, ctxEnded) <==>
            && !ctxEnded
            && 0 < UsableTags(n, track.recordingTags) < 3 && track.artistId != ""
            && artists(track.artistId).Failure? && MatchesContext(artists(track.artistId).error)
  {
    hide Usable, Unique, MatchesContext;
  }

  // One lookup of an artist's tags: the caller's context ends while it waits for its turn, or
  // its attempts would end as given, with these tags and genres in an answer.
  datatype ArtistCall =
    | GaveUp(deadline: bool)
    | Asked(ends: nat -> R.Response, ctxEndsAfterFirst: bool, tags: seq<Tag>)
  {
    // The context of the lookup does not end.
    predicate Live()
    {
      Asked? && !ctxEndsAfterFirst && !EndsWithContext(ends(0)) && !EndsWithContext(ends(1))
    }
  }

  // Why the exchange broke off, if it did.
  function BrokeOff(r: R.Response): Option<R.Silence>
  {
    match r
    case NoResponse(why) => Some(why)
    case BadBody(why) => why
    case _ => None
  }

  predicate EndsWithContext(r: R.Response) { BrokeOff(r).Some? && BrokeOff(r).value.ContextEnded? }

  predicate TimedOut(r: R.Response) { BrokeOff(r) == Some(R.ClientTimeout) }

  function ContextError(deadline: bool): Error { if deadline then DeadlineExceeded else Canceled }

  // The transport's error. The HTTP client's own timeout matches DeadlineExceeded just as the
  // caller's deadline does.
  function TransportError(why: R.Silence): Error
  {
    match why
    case NetworkError => Other("network")
    case ClientTimeout => DeadlineExceeded
    case ContextEnded(deadline) => ContextError(deadline)
  }

  // The error of an exchange as attempt reports it.
  function ErrorOf(r: R.Response): Error
    requires !r.Answered? && !r.NoSuchEntity?
  {
    match r
    case Refused(status, _) => Upstream(status, None)
    case NoResponse(why) => Upstream(0, Some(TransportError(why)))
    case BadBody(why) =>
      Wrapped("musicbrainz: decode response", if why.Some? then TransportError(why.value) else Other("bad JSON"))
  }

  // Client.ArtistTags: an unknown artist has no tags.
  function ArtistTagsOf(call: ArtistCall): Outcome<seq<Tag>>
  {
    if call.GaveUp? then Failure(ContextError(call.deadline)) else
    var r := R.Exchanged(call.ends, call.ctxEndsAfterFirst);
    if r.Answered? then Success(call.tags) else if r.NoSuchEntity? then Success([]) else Failure(ErrorOf(r))
  }

  function Client(calls: string -> ArtistCall): string -> Outcome<seq<Tag>>
  {
    (id: string) => ArtistTagsOf(calls(id))
  }

  // With MusicBrainz behind it, a live lookup loses the thin answer exactly if the attempt that
  // counts runs into the client's own timeout: the first one while its body is read, or the
  // second one, made after a 503 or no response, at any point.
  lemma TimeoutsLoseThinAnswers(n: Normalizer, track: Track, calls: string -> ArtistCall)
    requires calls(track.artistId).Live()
    ensures var ends := calls(track.artistId).ends;
      !KeepsThinAnswer(n, track, Client(calls), false) <==>
      && 0 < UsableTags(n, track.recordingTags) < 3 && track.artistId != ""
      && (|| ends(0) == R.BadBody(Some(R.ClientTimeout))
          || ((ends(0).NoResponse? || (ends(0).Refused? && ends(0).status == 503))
              && ends(1) in {R.NoResponse(R.ClientTimeout), R.BadBody(Some(R.ClientTimeout))}))
  {
    var call := calls(track.artistId);
    ThinAnswerIsLostExactly(n, track, Client(calls), false);
    hide UsableTags, KeepsThinAnswer;
    if Client(calls)(track.artistId).Failure? {
      ContextErrorOfExchange(R.Exchanged(call.ends, false));
    }
  }

  lemma ContextErrorOfExchange(r: R.Response)
    requires !r.Answered? && !r.NoSuchEntity?
    ensures MatchesContext(ErrorOf(r)) <==> EndsWithContext(r) || TimedOut(r)
  {
    if BrokeOff(r).Some? {
      var cause := TransportError(BrokeOff(r).value);
      assert MatchesContext(ErrorOf(r)) <==> MatchesContext(cause);
    }
  }

  // One usable tag, a caller that is there, and an artist lookup that times out twice.
  lemma TimedOutArtistLosesThinAnswer()
    ensures var n := Normalizer((raw: string) => raw, map[], {});
      var track := Track("id", "title", "artist", "mbid", ["rock"], [Tag("rock", 1)], [], NoTags, false);
      var calls := (id: string) => Asked((k: nat) => R.NoResponse(R.ClientTimeout), false, []);
      && calls(track.artistId).Live()
      && UsableTags(n, track.recordingTags) == 1
      && Resolve(n, Success(track), Client(calls)) == Failure(Upstream(0, Some(DeadlineExceeded)))
      && !KeepsThinAnswer(n, track, Client(calls), false)
  {
    var n := Normalizer((raw: string) => raw, map[], {});
    hide Normalize, Usable, Unique, Names, T.TagNames;
    OneUsableTag(n);
    ContextErrorOfExchange(R.NoResponse(R.ClientTimeout));
  }

  lemma OneUsableTag(n: Normalizer)
    requires n.clean("rock") == "rock" && n.synonyms == map[] && n.stop == {}
    ensures UsableTags(n, [Tag("rock", 1)]) == 1
  {
    var names := T.TagNames([Tag("rock", 1)]);
    assert names == ["rock"] && names[..0] == [];
    assert Normalize(n, "rock") == Some("rock");
    hide Normalize;
    assert Names(n, names) == ["rock"];
    UniqueNext([], "rock");
    assert [] + ["rock"] == ["rock"];
  }

  // ---------------------------------------------------------------- the resolver

  method SearchTrack(n: Normalizer, found: Outcome<Track>, artists: string -> Outcome<seq<Tag>>)
      returns (r: Outcome<Track>)
    ensures r == Resolve(n, found, artists)
  {
    if found.Failure? {
      return found;
    }
    var track := found.value;
    track := track.(artistTags := [], tagSource := NoTags);
    track := track.(tags := T.TagNames(track.recordingTags));
    var normal := NormalizeAll(n, track.tags);
    var recordingTags := |normal|;
    if recordingTags >= MIN_RECORDING_TAGS {
      track := track.(tagSource := RecordingTags);
      return Success(track);
    }
    if recordingTags > 0 {
      track := track.(tagSource := RecordingTags);
    }
    if track.artistId == "" {
      return Success(track);
    }
    var artistTags := artists(track.artistId);
    if artistTags.Failure? {
      if recordingTags > 0 && !Is(artistTags.error, Canceled) && !Is(artistTags.error, DeadlineExceeded) {
        return Success(track);
      }
      return Failure(artistTags.error);
    }
    var artistNames := T.TagNames(artistTags.value);
    var usable := NormalizeAll(n, artistNames);
    if |usable| == 0 {
      return Success(track);
    }
    track := track.(artistTags := artistTags.value);
    var union := UnionNames(track.tags, artistNames);
    track := track.(tags := union);
    track := track.(tagSource := if recordingTags > 0 then MixedTags else ArtistTags);
    return Success(track);
  }

  // ---------------------------------------------------------------- votes and shares

  function Votes(t: Tag): int { if t.count > 1 then t.count else 1 }

  // Votes gathered under the normalized names.
  function Gathering(n: Normalizer): (map<string, int>, Tag) -> map<string, int>
  {
    (votes: map<string, int>, t: Tag) =>
      match Normalize(n, t.name)
      case None => votes
      case Some(name) => votes[name := (if name in votes then votes[name] else 0) + Votes(t)]
  }

  function Gathered(n: Normalizer, tags: seq<Tag>): map<string, int> { Fold(Gathering(n), map[], tags) }

  function TotalOf(n: Normalizer, tags: seq<Tag>): nat
  {
    if tags == [] then 0 else
      TotalOf(n, tags[..|tags| - 1]) + if Normalize(n, tags[|tags| - 1].name).Some? then Votes(tags[|tags| - 1]) else 0
  }

  function VoteAt(votes: map<string, int>): string -> real
  {
    (t: string) => if t in votes then votes[t] as real else 0.0
  }

  function Portion(weight: real, count: real, total: real): real
    requires total > 0.0
  {
    weight * count / total
  }

  function Rate(weight: real, total: real): real
    requires total > 0.0
  {
    weight / total
  }

  lemma PortionLaws(weight: real, count: real, total: real)
    requires total > 0.0
    ensures Portion(weight, count, total) == Rate(weight, total) * count
    ensures weight > 0.0 && count > 0.0 ==> Portion(weight, count, total) > 0.0
  {
  }

  lemma WholePortion(weight: real, total: real, sum: real)
    requires total > 0.0 && sum == total
    ensures Rate(weight, total) * sum == weight
  {
  }

  function Share(votes: map<string, int>, total: int, weight: real, t: string): real
  {
    if t in votes && total > 0 then Portion(weight, votes[t] as real, total as real) else 0.0
  }

  function ShareAt(votes: map<string, int>, total: int, weight: real): string -> real
  {
    (t: string) => Share(votes, total, weight, t)
  }

  lemma GatheredSnoc(n: Normalizer, tags: seq<Tag>, last: nat)
    requires |tags| == last + 1
    ensures var before, names := Gathered(n, tags[..last]), Names(n, T.TagNames(tags[..last]));
      match Normalize(n, tags[last].name)
      case None =>
        && Gathered(n, tags) == before
        && Names(n, T.TagNames(tags)) == names
        && TotalOf(n, tags) == TotalOf(n, tags[..last])
      case Some(name) =>
        && Gathered(n, tags) == before[name := (if name in before then before[name] else 0) + Votes(tags[last])]
        && Names(n, T.TagNames(tags)) == names + [name]
        && TotalOf(n, tags) == TotalOf(n, tags[..last]) + Votes(tags[last])
  {
    hide Normalize;
    assert T.TagNames(tags)[..last] == T.TagNames(tags[..last]);
  }

  // Votes gathered under names: each name has some, none has more than all, and all of them
  // make the total.
  ghost predicate Tally(votes: map<string, int>, names: seq<string>, total: int)
  {
    && (forall t :: t in votes <==> t in names)
    && (forall t :: t in votes ==> 0 < votes[t] <= total)
    && total >= 0
    && SetSum(votes.Keys, VoteAt(votes)) == total as real
  }

  lemma TallyNext(votes: map<string, int>, names: seq<string>, total: int, name: string, count: int)
    requires Tally(votes, names, total) && count > 0
    ensures Tally(votes[name := (if name in votes then votes[name] else 0) + count], names + [name], total + count)
  {
    OneMoreVote(votes, name, count);
    hide SetSum;
  }

  lemma {:induction false} GatheredFacts(n: Normalizer, tags: seq<Tag>)
    ensures Tally(Gathered(n, tags), Names(n, T.TagNames(tags)), TotalOf(n, tags))
  {
    if tags == [] {
      assert T.TagNames(tags) == [];
    } else {
      hide Tally, Gathered, Names, T.TagNames, Normalize, TotalOf;
      var last := |tags| - 1;
      GatheredFacts(n, tags[..last]);
      GatheredSnoc(n, tags, last);
      var name := Normalize(n, tags[last].name);
      if name.Some? {
        var names := Names(n, T.TagNames(tags[..last]));
        TallyNext(Gathered(n, tags[..last]), names, TotalOf(n, tags[..last]), name.value, Votes(tags[last]));
      }
    }
  }

  lemma OneMoreVote(votes: map<string, int>, name: string, count: int)
    ensures var more := votes[name := (if name in votes then votes[name] else 0) + count];
      SetSum(more.Keys, VoteAt(more)) == SetSum(votes.Keys, VoteAt(votes)) + count as real
  {
    var more := votes[name := (if name in votes then votes[name] else 0) + count];
    var rest := votes.Keys - {name};
    assert more.Keys == rest + {name};
    SetSumAdd(rest, name, VoteAt(more));
    SetSumEqual(rest, VoteAt(votes), VoteAt(more));
    if name in votes {
      SetSumTake(votes.Keys, name, VoteAt(votes));
    } else {
      assert rest == votes.Keys;
    }
  }

  // The loop over the gathered votes, whose order is the map's own.
  method AddVotes(profile: S.Profile, votes: map<string, int>, total: int, weight: real) returns (out: S.Profile)
    requires votes != map[] ==> total > 0
    ensures out.Keys == profile.Keys + votes.Keys
    ensures forall t :: t in out ==> out[t] == S.Weight(profile, t) + Share(votes, total, weight, t)
  {
    out := profile;
    var rest := votes.Keys;
    while rest != {}
      invariant rest <= votes.Keys && out.Keys == profile.Keys + (votes.Keys - rest)
      invariant forall t :: t in out ==>
        out[t] == S.Weight(profile, t) + if t in rest then 0.0 else Share(votes, total, weight, t)
    {
      var name :| name in rest;
      var share := Portion(weight, votes[name] as real, total as real);
      assert share == Share(votes, total, weight, name);
      hide Portion, Share;
      out := out[name := S.Weight(out, name) + share];
      rest := rest - {name};
    }
  }

  method AddShares(n: Normalizer, profile: S.Profile, tagList: seq<Tag>, weight: real) returns (out: S.Profile)
    ensures var votes, total := Gathered(n, tagList), TotalOf(n, tagList);
      && out.Keys == profile.Keys + votes.Keys
      && forall t :: t in out ==> out[t] == S.Weight(profile, t) + Share(votes, total, weight, t)
  {
    hide Portion;
    var votes: map<string, int> := map[];
    var total := 0;
    for i := 0 to |tagList|
      invariant votes == Gathered(n, tagList[..i]) && total == TotalOf(n, tagList[..i])
    {
      assert tagList[..i + 1][..i] == tagList[..i];
      var name := Normalize(n, tagList[i].name);
      if name.None? {
        continue;
      }
      var count := if tagList[i].count > 1 then tagList[i].count else 1;
      votes := votes[name.value := (if name.value in votes then votes[name.value] else 0) + count];
      total := total + count;
    }
    assert tagList[..|tagList|] == tagList;
    GatheredFacts(n, tagList);
    out := AddVotes(profile, votes, total, weight);
  }

  // A track's profile: recording tags at full weight, artist tags at half.
  ghost function ProfileOf(n: Normalizer, track: Track): (p: S.Profile)
    ensures p.Keys == Gathered(n, track.recordingTags).Keys + Gathered(n, track.artistTags).Keys
  {
    var own, theirs := Gathered(n, track.recordingTags), Gathered(n, track.artistTags);
    map t | t in own.Keys + theirs.Keys ::
      Share(own, TotalOf(n, track.recordingTags), 1.0, t) +
      Share(theirs, TotalOf(n, track.artistTags), ARTIST_WEIGHT, t)
  }

  method BuildProfile(n: Normalizer, track: Track) returns (profile: S.Profile)
    ensures profile == ProfileOf(n, track)
  {
    profile := map[];
    profile := AddShares(n, profile, track.recordingTags, 1.0);
    ghost var first := profile;
    profile := AddShares(n, profile, track.artistTags, ARTIST_WEIGHT);
    ghost var votes, total := Gathered(n, track.recordingTags), TotalOf(n, track.recordingTags);
    assert forall t :: S.Weight(first, t) == Share(votes, total, 1.0, t);
  }

  lemma SharesScale(votes: map<string, int>, total: int, weight: real)
    requires total > 0
    ensures SetSum(votes.Keys, ShareAt(votes, total, weight)) ==
            Rate(weight, total as real) * SetSum(votes.Keys, VoteAt(votes))
  {
    hide SetSum, Portion, Rate;
    var c := Rate(weight, total as real);
    forall t | t in votes.Keys ensures ShareAt(votes, total, weight)(t) == c * VoteAt(votes)(t) {
      PortionLaws(weight, votes[t] as real, total as real);
    }
    SetSumScale(votes.Keys, VoteAt(votes), ShareAt(votes, total, weight), c);
  }

  lemma SharesSum(votes: map<string, int>, total: int, weight: real, keys: set<string>)
    requires votes.Keys <= keys && total > 0 && SetSum(votes.Keys, VoteAt(votes)) == total as real
    ensures SetSum(keys, ShareAt(votes, total, weight)) == weight
  {
    hide SetSum, Portion, Rate;
    S.SetSumExtend(votes.Keys, keys, ShareAt(votes, total, weight));
    SharesScale(votes, total, weight);
    WholePortion(weight, total as real, SetSum(votes.Keys, VoteAt(votes)));
  }

  // What one list of tags brings to the profile's total: all of its weight, or nothing.
  lemma ListBringsItsWeight(n: Normalizer, tags: seq<Tag>, weight: real, keys: set<string>)
    requires Gathered(n, tags).Keys <= keys
    ensures SetSum(keys, ShareAt(Gathered(n, tags), TotalOf(n, tags), weight))
         == if UsableTags(n, tags) > 0 then weight else 0.0
    ensures UsableTags(n, tags) == |Gathered(n, tags)|
  {
    var votes, names := Gathered(n, tags), Names(n, T.TagNames(tags));
    GatheredFacts(n, tags);
    UniqueKeepsFirsts(names, 0);
    DistinctSize(Unique(names), votes.Keys);
    if votes == map[] {
      SetSumZero(keys, ShareAt(votes, TotalOf(n, tags), weight));
    } else {
      var t :| t in votes;
      SharesSum(votes, TotalOf(n, tags), weight, keys);
      assert |votes| > 0 by {
        assert t in votes.Keys;
      }
    }
  }

  lemma {:induction false} NamesAppend(n: Normalizer, xs: seq<string>, ys: seq<string>)
    ensures Names(n, xs + ys) == Names(n, xs) + Names(n, ys)
  {
    if ys == [] {
      assert xs + ys == xs;
    } else {
      NamesAppend(n, xs, ys[..|ys| - 1]);
      assert (xs + ys)[..|xs + ys| - 1] == xs + ys[..|ys| - 1];
    }
  }

  lemma {:induction false} NamesMembers(n: Normalizer, raw: seq<string>, t: string)
    ensures t in Names(n, raw) <==> exists r :: r in raw && Normalize(n, r) == Some(t)
  {
    if raw != [] {
      var last := |raw| - 1;
      NamesMembers(n, raw[..last], t);
      assert forall r :: r in raw <==> r in raw[..last] || r == raw[last];
    }
  }

  // Dropping repeated raw names changes no normalized name.
  lemma NamesOfUnique(n: Normalizer, raw: seq<string>, t: string)
    ensures t in Names(n, Unique(raw)) <==> t in Names(n, raw)
  {
    NamesMembers(n, raw, t);
    NamesMembers(n, Unique(raw), t);
    UniqueKeepsFirsts(raw, 0);
  }

  // ---------------------------------------------------------------- what a resolved track's profile is

  function WeightOf(source: TagSource): real
  {
    match source
    case NoTags => 0.0
    case RecordingTags => 1.0
    case ArtistTags => 0.5
    case MixedTags => 1.5
  }

  // The source of a resolved track says which of its lists are usable, and its tags name them.
  lemma ResolvedSource(n: Normalizer, found: Outcome<Track>, artists: string -> Outcome<seq<Tag>>, t: Track)
    requires Resolve(n, found, artists) == Success(t)
    ensures UsableTags(n, t.recordingTags) > 0 <==> t.tagSource.RecordingTags? || t.tagSource.MixedTags?
    ensures UsableTags(n, t.artistTags) > 0 <==> t.tagSource.ArtistTags? || t.tagSource.MixedTags?
    ensures UsableTags(n, t.artistTags) > 0 ==> UsableTags(n, t.recordingTags) < 3
    ensures if t.artistTags == [] then t.tags == T.TagNames(t.recordingTags)
            else t.tags == Unique(T.TagNames(t.recordingTags) + T.TagNames(t.artistTags))
  {
    assert T.TagNames([]) == [];
    assert UsableTags(n, []) == 0;
  }

  lemma ProfileNames(n: Normalizer, found: Outcome<Track>, artists: string -> Outcome<seq<Tag>>, t: Track)
    requires Resolve(n, found, artists) == Success(t)
    ensures forall x :: x in ProfileOf(n, t) <==> x in Names(n, t.tags)
  {
    ResolvedSource(n, found, artists, t);
    GatheredFacts(n, t.recordingTags);
    GatheredFacts(n, t.artistTags);
    var both := T.TagNames(t.recordingTags) + T.TagNames(t.artistTags);
    NamesAppend(n, T.TagNames(t.recordingTags), T.TagNames(t.artistTags));
    hide Resolve, Gathered;
    forall x ensures x in Names(n, t.tags) <==> x in Names(n, both) {
      NamesOfUnique(n, both, x);
      if t.artistTags == [] {
        assert both == T.TagNames(t.recordingTags);
      }
    }
  }

  lemma ProfileTotal(n: Normalizer, t: Track)
    ensures var p := ProfileOf(n, t);
      SetSum(p.Keys, S.At(p)) == (if UsableTags(n, t.recordingTags) > 0 then 1.0 else 0.0)
                               + (if UsableTags(n, t.artistTags) > 0 then ARTIST_WEIGHT else 0.0)
  {
    hide Gathered, TotalOf, UsableTags, Portion;
    var p := ProfileOf(n, t);
    ListBringsItsWeight(n, t.recordingTags, 1.0, p.Keys);
    ListBringsItsWeight(n, t.artistTags, ARTIST_WEIGHT, p.Keys);
    SetSumPlus(p.Keys, ShareAt(Gathered(n, t.recordingTags), TotalOf(n, t.recordingTags), 1.0),
               ShareAt(Gathered(n, t.artistTags), TotalOf(n, t.artistTags), ARTIST_WEIGHT), S.At(p));
  }

  lemma ProfileWeight(n: Normalizer, found: Outcome<Track>, artists: string -> Outcome<seq<Tag>>, t: Track)
    requires Resolve(n, found, artists) == Success(t)
    ensures SetSum(ProfileOf(n, t).Keys, S.At(ProfileOf(n, t))) == WeightOf(t.tagSource)
  {
    ResolvedSource(n, found, artists, t);
    ProfileTotal(n, t);
    hide Resolve, Gathered, UsableTags, ProfileOf, SetSum;
  }

  lemma ProfileSize(n: Normalizer, found: Outcome<Track>, artists: string -> Outcome<seq<Tag>>, t: Track)
    requires Resolve(n, found, artists) == Success(t)
    ensures |ProfileOf(n, t)| == Usable(n, t.tags)
  {
    ProfileNames(n, found, artists, t);
    hide Resolve, Gathered, Names, ProfileOf;
    var names := Names(n, t.tags);
    UniqueKeepsFirsts(names, 0);
    DistinctSize(Unique(names), ProfileOf(n, t).Keys);
  }

  // The main result, for every track the resolver returns: its profile is empty exactly when
  // it has no tag source; the weights sum to what the source stands for; and it has one entry
  // for every normalized name of the track's tags, so that the answer is marked low_data
  // exactly when the resolver's own count of usable tags is below three.
  lemma ResolvedProfile(n: Normalizer, found: Outcome<Track>, artists: string -> Outcome<seq<Tag>>, t: Track)
    requires Resolve(n, found, artists) == Success(t)
    ensures var p := ProfileOf(n, t);
      && (p == map[] <==> t.tagSource.NoTags?)
      && SetSum(p.Keys, S.At(p)) == WeightOf(t.tagSource)
      && |p| == Usable(n, t.tags)
      && (|p| < LOW_DATA_TAGS <==> Usable(n, t.tags) < 3)
  {
    ResolvedSource(n, found, artists, t);
    ProfileWeight(n, found, artists, t);
    ProfileSize(n, found, artists, t);
    ListBringsItsWeight(n, t.recordingTags, 1.0, ProfileOf(n, t).Keys);
    ListBringsItsWeight(n, t.artistTags, ARTIST_WEIGHT, ProfileOf(n, t).Keys);
    hide Resolve, Gathered, UsableTags, Usable, ProfileOf, SetSum;
    assert ProfileOf(n, t) == map[] <==> ProfileOf(n, t).Keys == {};
  }

  // The votes a list gives a normalized name, and all its usable votes; a tag nobody voted for
  // counts as one vote.
  function NamedVotes(n: Normalizer, tags: seq<Tag>, name: string): int
  {
    if tags == [] then 0 else
      var t := tags[|tags| - 1];
      NamedVotes(n, tags[..|tags| - 1], name)
        + if Normalize(n, t.name) == Some(name) then (if t.count >= 1 then t.count else 1) else 0
  }

  function UsableVotes(n: Normalizer, tags: seq<Tag>): int
  {
    if tags == [] then 0 else
      var t := tags[|tags| - 1];
      UsableVotes(n, tags[..|tags| - 1])
        + if Normalize(n, t.name).Some? then (if t.count >= 1 then t.count else 1) else 0
  }

  lemma {:induction false} GatheredVotes(n: Normalizer, tags: seq<Tag>, name: string)
    ensures NamedVotes(n, tags, name) == if name in Gathered(n, tags) then Gathered(n, tags)[name] else 0
    ensures UsableVotes(n, tags) == TotalOf(n, tags)
  {
    if tags != [] {
      var last := |tags| - 1;
      GatheredVotes(n, tags[..last], name);
      GatheredSnoc(n, tags, last);
      hide Gathered, Names, T.TagNames, Normalize;
    }
  }

  // A list's share of votes for a name.
  function VoteShare(n: Normalizer, tags: seq<Tag>, name: string): real
  {
    if UsableVotes(n, tags) > 0 then NamedVotes(n, tags, name) as real / UsableVotes(n, tags) as real else 0.0
  }

  lemma ShareIsVoteShare(n: Normalizer, tags: seq<Tag>, weight: real, name: string)
    ensures Share(Gathered(n, tags), TotalOf(n, tags), weight, name) == weight * VoteShare(n, tags, name)
  {
    GatheredVotes(n, tags, name);
    GatheredFacts(n, tags);
    var votes, total := Gathered(n, tags), TotalOf(n, tags);
    hide Gathered, TotalOf, NamedVotes, UsableVotes, Names, T.TagNames, SetSum;
    if name in votes {
      PortionIsPart(weight, votes[name] as real, total as real);
    } else if total > 0 {
      PortionIsPart(weight, 0.0, total as real);
    }
  }

  lemma PortionIsPart(weight: real, count: real, total: real)
    requires total > 0.0
    ensures Portion(weight, count, total) == weight * (count / total)
    ensures Portion(weight, 0.0, total) == 0.0
  {
    var part := count / total;
    assert part * total == count;
    assert weight * count == weight * part * total;
  }

  // The weight of a name is its share of the recordings' votes plus half its share of the
  // artist's: votes decide, and a recording's tags count twice an artist's.
  lemma WeightsAreVoteShares(n: Normalizer, t: Track, name: string)
    requires name in ProfileOf(n, t)
    ensures ProfileOf(n, t)[name] == VoteShare(n, t.recordingTags, name) + 0.5 * VoteShare(n, t.artistTags, name)
  {
    ShareIsVoteShare(n, t.recordingTags, 1.0, name);
    ShareIsVoteShare(n, t.artistTags, 0.5, name);
    hide Share, Gathered, TotalOf, VoteShare;
  }

  // A profile never carries a zero weight, whatever the votes, so all of its names count.
  lemma ProfileIsPositive(n: Normalizer, t: Track)
    ensures S.AllPositive(ProfileOf(n, t))
  {
    GatheredFacts(n, t.recordingTags);
    GatheredFacts(n, t.artistTags);
    hide Gathered, TotalOf, Names, Portion;
    var own, theirs := Gathered(n, t.recordingTags), Gathered(n, t.artistTags);
    forall x | x in own ensures Share(own, TotalOf(n, t.recordingTags), 1.0, x) > 0.0 {
      PortionLaws(1.0, own[x] as real, TotalOf(n, t.recordingTags) as real);
    }
    forall x | x in theirs ensures Share(theirs, TotalOf(n, t.artistTags), ARTIST_WEIGHT, x) > 0.0 {
      PortionLaws(ARTIST_WEIGHT, theirs[x] as real, TotalOf(n, t.artistTags) as real);
    }
  }

  lemma GatheringCommutes(n: Normalizer)
    ensures Commuting(Gathering(n))
  {
    var step := Gathering(n);
    hide Normalize;
    forall m, x, y ensures step(step(m, x), y) == step(step(m, y), x) {
      assert step(step(m, x), y).Keys == step(step(m, y), x).Keys;
    }
  }

  lemma TotalIgnoresOrder(n: Normalizer, xs: seq<Tag>, ys: seq<Tag>)
    requires multiset(xs) == multiset(ys)
    ensures TotalOf(n, xs) == TotalOf(n, ys)
  {
    GatheredFacts(n, xs);
    GatheredFacts(n, ys);
    GatheringCommutes(n);
    FoldPermutes(Gathering(n), map[], xs, ys);
  }

  // The order of a track's tags cannot be seen in its profile.
  lemma ProfileIgnoresTagOrder(n: Normalizer, t: Track, u: Track)
    requires multiset(t.recordingTags) == multiset(u.recordingTags) && multiset(t.artistTags) == multiset(u.artistTags)
    ensures ProfileOf(n, t) == ProfileOf(n, u)
  {
    GatheringCommutes(n);
    FoldPermutes(Gathering(n), map[], t.recordingTags, u.recordingTags);
    FoldPermutes(Gathering(n), map[], t.artistTags, u.artistTags);
    TotalIgnoresOrder(n, t.recordingTags, u.recordingTags);
    TotalIgnoresOrder(n, t.artistTags, u.artistTags);
  }
}
