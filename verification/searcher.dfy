// The read-through track cache (internal/cache/searcher.go): how a track becomes a stored
// entry and comes back, and why a lookup cannot be told from the upstream's own answer,
// whatever the store does and however lookups interleave.
module TrackCache {
  import opened Collections
  import opened MusicBrainz
  import opened CacheCore
  import F = FlightProtocol
  import K = CacheKey
  import T = TrackSearch

  type Reply = F.Reply<Track>

  const LOW_DATA_TAGS := 3
  const NOT_FOUND := "not found"
  const PANICKED := "cache: lookup panicked"

  // ---------------------------------------------------------------- entries

  datatype EntryTag = EntryTag(name: string, count: int)
  datatype EntryTrack = EntryTrack(id: string, title: string, artist: string, artistId: string, tags: seq<EntryTag>)
  datatype Entry = Entry(found: bool, track: Option<EntryTrack>)

  // Stored bytes, as decoding sees them: what json.Marshal made of an entry, or bytes that
  // do not decode.
  datatype Raw = Json(entry: Entry) | Garbage

  function ToEntryTag(t: Tag): EntryTag { EntryTag(t.name, t.count) }
  function FromEntryTag(t: EntryTag): Tag { Tag(t.name, t.count) }

  function ToEntry(t: Track): EntryTrack
  {
    EntryTrack(t.id, t.title, t.artist, t.artistId, Map(ToEntryTag, t.recordingTags))
  }

  function FromEntry(e: EntryTrack): Track
  {
    var tags := Map(FromEntryTag, e.tags);
    Track(e.id, e.title, e.artist, e.artistId, T.TagNames(tags), tags, [], NoTags, true)
  }

  method ToEntryTags(tags: seq<Tag>) returns (out: seq<EntryTag>)
    ensures out == Map(ToEntryTag, tags)
  {
    out := [];
    for i := 0 to |tags|
      invariant |out| == i && forall j :: 0 <= j < i ==> out[j] == ToEntryTag(tags[j])
    {
      out := out + [EntryTag(tags[i].name, tags[i].count)];
    }
  }

  method FromEntryTags(tags: seq<EntryTag>) returns (out: seq<Tag>)
    ensures out == Map(FromEntryTag, tags)
  {
    out := [];
    for i := 0 to |tags|
      invariant |out| == i && forall j :: 0 <= j < i ==> out[j] == FromEntryTag(tags[j])
    {
      out := out + [Tag(tags[i].name, tags[i].count)];
    }
  }

  method ReadEntry(e: EntryTrack) returns (t: Track)
    ensures t == FromEntry(e)
  {
    var recordingTags := FromEntryTags(e.tags);
    var tags: seq<string> := [];
    for i := 0 to |recordingTags|
      invariant |tags| == i && forall j :: 0 <= j < i ==> tags[j] == recordingTags[j].name
    {
      tags := tags + [recordingTags[i].name];
    }
    t := Track(e.id, e.title, e.artist, e.artistId, tags, recordingTags, [], NoTags, true);
  }

  // Storing and reading back keeps a track, apart from the cached mark, exactly when its
  // names are those of its recording tags and it carries nothing from its artist.
  lemma RoundTrip(t: Track)
    ensures FromEntry(ToEntry(t)) == t.(cached := true) <==>
            t.tags == T.TagNames(t.recordingTags) && t.artistTags == [] && t.tagSource == NoTags
  {
    assert Map(FromEntryTag, Map(ToEntryTag, t.recordingTags)) == t.recordingTags;
  }

  // ---------------------------------------------------------------- what is stored, for how long

  datatype Ttls = Ttls(found: int, lowData: int, negative: int)

  // Some(t) is a track the upstream knows, None its "not found".
  function EntryOf(truth: Option<Track>): Entry
  {
    match truth case Some(t) => Entry(true, Some(ToEntry(t))) case None => Entry(false, None)
  }

  function TtlOf(ttls: Ttls, truth: Option<Track>): int
  {
    match truth
    case Some(t) => if |t.recordingTags| < LOW_DATA_TAGS then ttls.lowData else ttls.found
    case None => ttls.negative
  }

  // What a reply says about the track; failures other than "not found" say nothing.
  function Learned(reply: Reply): Option<Option<Track>>
  {
    match reply
    case Value(t) => Some(Some(t))
    case Failed(e) => if e == NOT_FOUND then Some(None) else None
  }

  function AnswerFrom(e: Entry): Reply
  {
    if !e.found || e.track.None? then F.Failed(NOT_FOUND) else F.Value(FromEntry(e.track.value))
  }

  function SavedStore(ttls: Ttls, store: map<F.Key, Raw>, key: F.Key, reply: Reply, stored: bool): map<F.Key, Raw>
  {
    var learned := Learned(reply);
    if stored && learned.Some? && TtlOf(ttls, learned.value) > 0
    then store[key := Json(EntryOf(learned.value))]
    else store
  }

  // ---------------------------------------------------------------- lookups, interleaved

  datatype Query = Query(artist: K.Text, title: K.Text)

  // The world around the cache: Unicode lower-casing, what the upstream knows about every
  // query, the failures it may report instead, and the times to keep answers.
  datatype World = World(lower: K.Lower, truth: Query -> Option<Track>, mayFail: string -> bool, ttls: Ttls)

  function AsString(bytes: K.Bytes): string { seq(|bytes|, i requires 0 <= i < |bytes| => (bytes[i] as int) as char) }

  function KeyOf(lower: K.Lower, q: Query): F.Key { AsString(K.Key(lower, q.artist, q.title)) }

  // How far the function run by a flight has come.
  datatype Work = Searching(query: Query) | Fetched(query: Query, reply: Reply) | Saved(query: Query, reply: Reply)

  datatype Stage = Asked | Missed | Refused | Joined(caller: nat) | Hit(reply: Reply)

  datatype Lookup = Lookup(query: Query, stage: Stage)

  datatype System = System(
    flights: F.State<Track>,
    work: seq<Work>,              // by flight
    store: map<F.Key, Raw>,
    lookups: seq<Lookup>,
    hits: nat)

  datatype Step =
    | Ask(query: Query)
    | Read(lookup: nat, served: bool)        // served is false on a miss, an error, a bypass or an expiry
    | Fly(lookup: nat, ctxEnded: bool)
    | Fetch(flight: nat, reply: Reply)
    | Save(flight: nat, stored: bool)
    | Finish(flight: nat)
    | Panic(flight: nat)
    | Proceed(step: F.Step<Track>)           // a caller's select, or the end of a run
    | Drop(key: F.Key)
    | Corrupt(key: F.Key)

  function Initial(): System { System(F.Initial<Track>(), [], map[], [], 0) }

  // The upstream answers a query with what it knows, or fails in one of its ways.
  predicate Fits(w: World, q: Query, reply: Reply)
  {
    match reply
    case Value(t) => w.truth(q) == Some(t)
    case Failed(e) => if e == NOT_FOUND then w.truth(q).None? else w.mayFail(e) || e == PANICKED
  }

  predicate Calling(s: System, f: nat)
  {
    f < |s.work| && F.FlightIs(s.flights, f, F.Calling)
  }

  predicate AtStage(s: System, l: nat, stage: Stage) { l < |s.lookups| && s.lookups[l].stage == stage }

  predicate Enabled(w: World, s: System, step: Step)
  {
    match step
    case Ask(_) => true
    case Read(l, _) => AtStage(s, l, Asked)
    case Fly(l, ctxEnded) =>
      AtStage(s, l, Missed) && (!ctxEnded ==> F.Enabled(s.flights, F.Join(KeyOf(w.lower, s.lookups[l].query))))
    case Fetch(f, reply) => Calling(s, f) && s.work[f].Searching? && Fits(w, s.work[f].query, reply)
    case Save(f, _) => Calling(s, f) && s.work[f].Fetched?
    case Finish(f) => Calling(s, f) && s.work[f].Saved?
    case Panic(f) => Calling(s, f)
    case Proceed(p) => !p.Refuse? && !p.Join? && !p.Return? && F.Enabled(s.flights, p)
    case Drop(_) => true
    case Corrupt(_) => true
  }

  function SetStage(s: System, l: nat, stage: Stage): System
    requires l < |s.lookups|
  {
    s.(lookups := s.lookups[l := s.lookups[l].(stage := stage)])
  }

  function Apply(w: World, s: System, step: Step): System
    requires Enabled(w, s, step)
  {
    match step
    case Ask(q) => s.(lookups := s.lookups + [Lookup(q, Asked)])
    case Read(l, served) =>
      var key := KeyOf(w.lower, s.lookups[l].query);
      if served && key in s.store && s.store[key].Json? then
        SetStage(s, l, Hit(AnswerFrom(s.store[key].entry))).(hits := s.hits + 1)
      else SetStage(s, l, Missed)
    case Fly(l, ctxEnded) =>
      var q := s.lookups[l].query;
      var key := KeyOf(w.lower, q);
      if ctxEnded then SetStage(s, l, Refused).(flights := F.Apply(s.flights, F.Refuse(key)))
      else
        SetStage(s, l, Joined(|s.flights.callers|))
          .(flights := F.Apply(s.flights, F.Join(key)),
            work := if key in s.flights.calls then s.work else s.work + [Searching(q)])
    case Fetch(f, reply) => s.(work := s.work[f := Fetched(s.work[f].query, reply)])
    case Save(f, stored) =>
      var did := s.work[f];
      s.(store := SavedStore(w.ttls, s.store, s.flights.flights[f].key, did.reply, stored),
         work := s.work[f := Saved(did.query, did.reply)])
    case Finish(f) => s.(flights := F.Apply(s.flights, F.Return(f, s.work[f].reply)))
    case Panic(f) => s.(flights := F.Apply(s.flights, F.Return(f, F.Failed(PANICKED))))
    case Proceed(p) => s.(flights := F.Apply(s.flights, p))
    case Drop(key) => s.(store := s.store - {key})
    case Corrupt(key) => s.(store := s.store[key := Garbage])
  }

  // ---------------------------------------------------------------- the invariant

  // The upstream sees only the words of a query, and answers with tracks of the client's making.
  ghost predicate Honest(w: World)
  {
    && (forall q, r :: SameWords(w.lower, q, r) ==> w.truth(q) == w.truth(r))
    && forall q :: w.truth(q).Some? ==> T.FromClient(w.truth(q).value)
  }

  predicate SameWords(lower: K.Lower, q: Query, r: Query)
  {
    && K.Fields(K.ToLower(lower, q.artist)) == K.Fields(K.ToLower(lower, r.artist))
    && K.Fields(K.ToLower(lower, q.title)) == K.Fields(K.ToLower(lower, r.title))
  }

  lemma KeysFollowWords(lower: K.Lower, q: Query, r: Query)
    requires KeyOf(lower, q) == KeyOf(lower, r)
    ensures SameWords(lower, q, r)
  {
    var x, y := K.Key(lower, q.artist, q.title), K.Key(lower, r.artist, r.title);
    assert |AsString(x)| == |x| && |AsString(y)| == |y|;
    forall i | 0 <= i < |x| ensures x[i] == y[i] {
      assert AsString(x)[i] == AsString(y)[i];
    }
    assert x == y;
    K.KeysAgreeOnWords(lower, q.artist, q.title, r.artist, r.title);
  }

  // The reply is right for every query that shares the key.
  ghost predicate FitsKey(w: World, key: F.Key, reply: Reply)
  {
    forall q :: KeyOf(w.lower, q) == key ==> Fits(w, q, reply)
  }

  // Undecodable, or the upstream's own answer to every query with this key.
  ghost predicate RawIsTrue(w: World, key: F.Key, raw: Raw)
  {
    raw.Json? ==>
      forall q :: KeyOf(w.lower, q) == key ==> raw.entry == EntryOf(w.truth(q)) && TtlOf(w.ttls, w.truth(q)) > 0
  }

  ghost predicate StoreIsTrue(w: World, store: map<F.Key, Raw>)
  {
    forall key :: key in store ==> RawIsTrue(w, key, store[key])
  }

  ghost predicate WorkOk(w: World, key: F.Key, work: Work)
  {
    && key == KeyOf(w.lower, work.query)
    && (!work.Searching? ==> FitsKey(w, key, work.reply))
  }

  ghost predicate WorkIsTrue(w: World, s: System)
  {
    && |s.work| == |s.flights.flights|
    && (forall f :: 0 <= f < |s.work| ==> WorkOk(w, s.flights.flights[f].key, s.work[f]))
    && forall f :: 0 <= f < |s.work| && s.flights.flights[f].reply.Some? ==>
         FitsKey(w, s.flights.flights[f].key, s.flights.flights[f].reply.value)
  }

  // A cached answer is the upstream's, marked.
  ghost predicate HitIsTrue(w: World, q: Query, reply: Reply)
  {
    reply == match w.truth(q) case Some(t) => F.Value(t.(cached := true)) case None => F.Failed(NOT_FOUND)
  }

  ghost predicate LookupOk(w: World, callers: seq<F.Caller<Track>>, l: Lookup)
  {
    match l.stage
    case Hit(reply) => HitIsTrue(w, l.query, reply)
    case Joined(c) => c < |callers| && callers[c].Attached? && callers[c].key == KeyOf(w.lower, l.query)
    case _ => true
  }

  ghost predicate LookupsOk(w: World, s: System)
  {
    forall l :: 0 <= l < |s.lookups| ==> LookupOk(w, s.flights.callers, s.lookups[l])
  }

  predicate WasHit(l: Lookup) { l.stage.Hit? }
  predicate WasJoined(l: Lookup) { l.stage.Joined? }

  ghost predicate Counted(s: System)
  {
    && s.hits == Count(WasHit, s.lookups)
    && s.flights.leaders + s.flights.coalesced == Count(WasJoined, s.lookups)
  }

  ghost predicate Inv(w: World, s: System)
  {
    F.Inv(s.flights) && StoreIsTrue(w, s.store) && WorkIsTrue(w, s) && LookupsOk(w, s) && Counted(s)
  }

  lemma FitsAllOfKey(w: World, q: Query, reply: Reply)
    requires Honest(w) && Fits(w, q, reply)
    ensures FitsKey(w, KeyOf(w.lower, q), reply)
  {
    forall r | KeyOf(w.lower, r) == KeyOf(w.lower, q) ensures Fits(w, r, reply) {
      KeysFollowWords(w.lower, q, r);
      hide KeyOf, SameWords;
    }
  }

  lemma EntryAnswersTruth(w: World, key: F.Key, raw: Raw, q: Query)
    requires Honest(w) && RawIsTrue(w, key, raw) && raw.Json? && KeyOf(w.lower, q) == key
    ensures HitIsTrue(w, q, AnswerFrom(raw.entry))
  {
    if w.truth(q).Some? {
      RoundTrip(w.truth(q).value);
    }
  }

  lemma SavedStoreIsTrue(w: World, store: map<F.Key, Raw>, key: F.Key, reply: Reply, stored: bool)
    requires StoreIsTrue(w, store) && FitsKey(w, key, reply)
    ensures StoreIsTrue(w, SavedStore(w.ttls, store, key, reply, stored))
  {
    hide KeyOf, EntryOf, TtlOf;
    var learned := Learned(reply);
    if learned.Some? {
      forall q | KeyOf(w.lower, q) == key ensures w.truth(q) == learned.value {
        assert Fits(w, q, reply);
      }
    }
  }

  // Callers are only added, and keep their keys.
  lemma FlightStepKeepsCallers(s: F.State<Track>, p: F.Step<Track>)
    requires F.Inv(s) && F.Enabled(s, p)
    ensures var t := F.Apply(s, p);
      && |s.callers| <= |t.callers|
      && (forall c :: 0 <= c < |s.callers| ==>
           t.callers[c].key == s.callers[c].key && (s.callers[c].Attached? ==> t.callers[c].Attached?))
      && (p.Join? || t.leaders + t.coalesced == s.leaders + s.coalesced)
  {
  }

  lemma FlightsAfter(s: F.State<Track>, p: F.Step<Track>)
    requires F.Enabled(s, p) && !p.Join?
    ensures var t := F.Apply(s, p);
      && |t.flights| == |s.flights|
      && forall f :: 0 <= f < |s.flights| ==>
           && t.flights[f].key == s.flights[f].key
           && t.flights[f].reply == if p.Return? && p.flight == f then Some(p.reply) else s.flights[f].reply
  {
  }

  // A reply that a function returns in step p is right for its flight's key.
  ghost predicate ReturnFits(w: World, s: F.State<Track>, p: F.Step<Track>)
  {
    p.Return? ==> p.flight < |s.flights| && FitsKey(w, s.flights[p.flight].key, p.reply)
  }

  lemma FlightStepKeepsReplies(w: World, s: System, p: F.Step<Track>)
    requires WorkIsTrue(w, s) && F.Enabled(s.flights, p) && !p.Join? && ReturnFits(w, s.flights, p)
    ensures WorkIsTrue(w, s.(flights := F.Apply(s.flights, p)))
  {
    FlightsAfter(s.flights, p);
    hide FitsKey, WorkOk, F.Apply, F.Enabled;
  }

  // Any step of the flights but a join.
  lemma FlightStepKeepsInv(w: World, s: System, p: F.Step<Track>)
    requires Inv(w, s) && F.Enabled(s.flights, p) && !p.Join? && ReturnFits(w, s.flights, p)
    ensures Inv(w, s.(flights := F.Apply(s.flights, p)))
  {
    hide F.Apply, F.Inv, F.Enabled, WorkIsTrue, ReturnFits, KeyOf, HitIsTrue, StoreIsTrue, Count;
    F.StepKeepsInv(s.flights, p);
    FlightStepKeepsCallers(s.flights, p);
    FlightStepKeepsReplies(w, s, p);
  }

  lemma StageKeepsInv(w: World, s: System, l: nat, stage: Stage)
    requires Inv(w, s) && l < |s.lookups|
    requires !s.lookups[l].stage.Hit? && !s.lookups[l].stage.Joined? && !stage.Joined?
    requires LookupOk(w, s.flights.callers, Lookup(s.lookups[l].query, stage))
    ensures Inv(w, SetStage(s, l, stage).(hits := s.hits + if stage.Hit? then 1 else 0))
  {
    var next := s.lookups[l].(stage := stage);
    CountUpdate(WasHit, s.lookups, l, next);
    CountUpdate(WasJoined, s.lookups, l, next);
    hide F.Inv, LookupOk, WorkIsTrue;
  }

  lemma JoinKeepsWork(w: World, s: System, key: F.Key, q: Query)
    requires Inv(w, s) && F.Enabled(s.flights, F.Join(key)) && key == KeyOf(w.lower, q)
    ensures WorkIsTrue(w, s.(flights := F.Apply(s.flights, F.Join(key)),
                             work := if key in s.flights.calls then s.work else s.work + [Searching(q)]))
  {
    hide FitsKey, KeyOf;
  }

  // What a join adds to the callers and the counters.
  lemma JoinAddsCaller(s: F.State<Track>, key: F.Key)
    requires F.Enabled(s, F.Join(key))
    ensures var t := F.Apply(s, F.Join(key)); var c := |s.callers|;
      && |t.callers| == c + 1 && t.callers[c].Attached? && t.callers[c].key == key
      && t.leaders + t.coalesced == s.leaders + s.coalesced + 1
  {
  }

  lemma JoinKeepsLookups(w: World, s: System, l: nat, flights: F.State<Track>)
    requires LookupsOk(w, s) && Counted(s) && AtStage(s, l, Missed)
    requires forall i :: 0 <= i < |s.lookups| ==> LookupOk(w, flights.callers, s.lookups[i])
    requires LookupOk(w, flights.callers, Lookup(s.lookups[l].query, Joined(|s.flights.callers|)))
    requires flights.leaders + flights.coalesced == s.flights.leaders + s.flights.coalesced + 1
    ensures var t := SetStage(s, l, Joined(|s.flights.callers|)).(flights := flights); LookupsOk(w, t) && Counted(t)
  {
    var next := Lookup(s.lookups[l].query, Joined(|s.flights.callers|));
    CountUpdate(WasHit, s.lookups, l, next);
    CountUpdate(WasJoined, s.lookups, l, next);
    hide LookupOk;
  }

  lemma JoinKeepsInv(w: World, s: System, l: nat, q: Query, key: F.Key, flights: F.State<Track>)
    requires Inv(w, s) && AtStage(s, l, Missed) && s.lookups[l].query == q && key == KeyOf(w.lower, q)
    requires F.Enabled(s.flights, F.Join(key)) && flights == F.Apply(s.flights, F.Join(key))
    ensures Inv(w, SetStage(s, l, Joined(|s.flights.callers|))
                     .(flights := flights, work := if key in s.flights.calls then s.work else s.work + [Searching(q)]))
  {
    hide F.Apply, F.Inv, F.Enabled, FitsKey, WorkOk, KeyOf, HitIsTrue, StoreIsTrue, Count;
    F.StepKeepsInv(s.flights, F.Join(key));
    FlightStepKeepsCallers(s.flights, F.Join(key));
    JoinAddsCaller(s.flights, key);
    JoinKeepsWork(w, s, key, q);
    JoinKeepsLookups(w, s, l, flights);
    hide LookupOk, LookupsOk, Counted;
  }

  lemma AskKeepsInv(w: World, s: System, q: Query)
    requires Inv(w, s)
    ensures Inv(w, Apply(w, s, Ask(q)))
  {
    CountAppend(WasHit, s.lookups, Lookup(q, Asked));
    CountAppend(WasJoined, s.lookups, Lookup(q, Asked));
    hide F.Inv, HitIsTrue, WorkOk, FitsKey, StoreIsTrue, KeyOf, Count;
  }

  lemma ReadKeepsInv(w: World, s: System, l: nat, served: bool)
    requires Honest(w) && Inv(w, s) && Enabled(w, s, Read(l, served))
    ensures Inv(w, Apply(w, s, Read(l, served)))
  {
    var key := KeyOf(w.lower, s.lookups[l].query);
    if served && key in s.store && s.store[key].Json? {
      assert RawIsTrue(w, key, s.store[key]);
      EntryAnswersTruth(w, key, s.store[key], s.lookups[l].query);
      StageKeepsInv(w, s, l, Hit(AnswerFrom(s.store[key].entry)));
    } else {
      StageKeepsInv(w, s, l, Missed);
    }
  }

  lemma FetchKeepsInv(w: World, s: System, f: nat, reply: Reply)
    requires Honest(w) && Inv(w, s) && Enabled(w, s, Fetch(f, reply))
    ensures Inv(w, Apply(w, s, Fetch(f, reply)))
  {
    FitsAllOfKey(w, s.work[f].query, reply);
    FetchKeepsWork(w, s, f, reply);
    hide F.Inv, WorkIsTrue, KeyOf, LookupOk, StoreIsTrue, Fits, Honest;
  }

  lemma FetchKeepsWork(w: World, s: System, f: nat, reply: Reply)
    requires WorkIsTrue(w, s) && f < |s.work| && FitsKey(w, KeyOf(w.lower, s.work[f].query), reply)
    ensures WorkIsTrue(w, s.(work := s.work[f := Fetched(s.work[f].query, reply)]))
  {
    hide FitsKey, KeyOf;
  }

  lemma SaveKeepsInv(w: World, s: System, f: nat, stored: bool)
    requires Inv(w, s) && Enabled(w, s, Save(f, stored))
    ensures Inv(w, Apply(w, s, Save(f, stored)))
  {
    assert WorkOk(w, s.flights.flights[f].key, s.work[f]);
    SavedStoreIsTrue(w, s.store, s.flights.flights[f].key, s.work[f].reply, stored);
    SaveKeepsWork(w, s, f);
    hide F.Inv, WorkIsTrue, FitsKey, KeyOf, LookupOk, StoreIsTrue, SavedStore;
  }

  lemma SaveKeepsWork(w: World, s: System, f: nat)
    requires WorkIsTrue(w, s) && f < |s.work| && s.work[f].Fetched?
    ensures WorkIsTrue(w, s.(work := s.work[f := Saved(s.work[f].query, s.work[f].reply)]))
  {
    hide FitsKey, KeyOf;
  }

  lemma StoreKeepsInv(w: World, s: System, step: Step)
    requires Inv(w, s) && Enabled(w, s, step) && (step.Drop? || step.Corrupt?)
    ensures Inv(w, Apply(w, s, step))
  {
    hide F.Inv, F.Enabled, WorkOk, FitsKey, LookupOk, KeyOf, Count, SavedStore;
  }

  lemma FlyKeepsInv(w: World, s: System, l: nat, ctxEnded: bool)
    requires Inv(w, s) && Enabled(w, s, Fly(l, ctxEnded))
    ensures Inv(w, Apply(w, s, Fly(l, ctxEnded)))
  {
    hide F.Apply, F.Enabled, F.Inv, KeyOf, StoreIsTrue, WorkIsTrue, Counted;
    var q := s.lookups[l].query;
    var key := KeyOf(w.lower, q);
    if ctxEnded {
      StageKeepsInv(w, s, l, Refused);
      hide Inv;
      RefusalIsEnabled(s.flights, key);
      FlightStepKeepsInv(w, SetStage(s, l, Refused), F.Refuse(key));
    } else {
      hide Inv;
      JoinKeepsInv(w, s, l, q, key, F.Apply(s.flights, F.Join(key)));
    }
  }

  lemma RefusalIsEnabled(s: F.State<Track>, key: F.Key)
    ensures F.Enabled(s, F.Refuse(key))
  {
  }

  // A function that panics fits every key, and one that finishes returns what it fetched.
  lemma PanicFits(w: World, key: F.Key)
    ensures FitsKey(w, key, F.Failed(PANICKED))
  {
    hide KeyOf;
    assert |PANICKED| != |NOT_FOUND|;
  }

  lemma FinishedWorkFits(w: World, s: System, f: nat)
    requires Inv(w, s) && f < |s.work| && s.work[f].Saved?
    ensures f < |s.flights.flights| && FitsKey(w, s.flights.flights[f].key, s.work[f].reply)
  {
    hide F.Inv, FitsKey, KeyOf, LookupsOk, Counted, StoreIsTrue;
    assert WorkOk(w, s.flights.flights[f].key, s.work[f]);
  }

  lemma FinishReturns(w: World, s: System, f: nat)
    requires Enabled(w, s, Finish(f))
    ensures f < |s.work| && s.work[f].Saved? && F.Enabled(s.flights, F.Return(f, s.work[f].reply))
    ensures Apply(w, s, Finish(f)) == s.(flights := F.Apply(s.flights, F.Return(f, s.work[f].reply)))
  {
    hide F.Apply;
  }

  lemma FinishKeepsInv(w: World, s: System, f: nat)
    requires Inv(w, s) && Enabled(w, s, Finish(f))
    ensures Inv(w, Apply(w, s, Finish(f)))
  {
    hide Inv, FitsKey, Apply, Enabled, F.Apply, F.Enabled;
    FinishReturns(w, s, f);
    FinishedWorkFits(w, s, f);
    FlightStepKeepsInv(w, s, F.Return(f, s.work[f].reply));
  }

  lemma PanicKeepsInv(w: World, s: System, f: nat)
    requires Inv(w, s) && Enabled(w, s, Panic(f))
    ensures Inv(w, Apply(w, s, Panic(f)))
  {
    hide Inv, FitsKey;
    PanicFits(w, s.flights.flights[f].key);
    FlightStepKeepsInv(w, s, F.Return(f, F.Failed(PANICKED)));
  }

  lemma ProceedKeepsInv(w: World, s: System, p: F.Step<Track>)
    requires Inv(w, s) && Enabled(w, s, Proceed(p))
    ensures Inv(w, Apply(w, s, Proceed(p)))
  {
    hide Inv, FitsKey, F.Apply, F.Enabled;
    FlightStepKeepsInv(w, s, p);
  }

  lemma StepKeepsInv(w: World, s: System, step: Step)
    requires Honest(w) && Inv(w, s) && Enabled(w, s, step)
    ensures Inv(w, Apply(w, s, step))
  {
    hide Honest, Inv, Enabled, Apply;
    match step
    case Ask(q) => AskKeepsInv(w, s, q);
    case Read(l, served) => ReadKeepsInv(w, s, l, served);
    case Fly(l, ctxEnded) => FlyKeepsInv(w, s, l, ctxEnded);
    case Fetch(f, reply) => FetchKeepsInv(w, s, f, reply);
    case Save(f, stored) => SaveKeepsInv(w, s, f, stored);
    case Finish(f) => FinishKeepsInv(w, s, f);
    case Panic(f) => PanicKeepsInv(w, s, f);
    case Proceed(p) => ProceedKeepsInv(w, s, p);
    case Drop(_) | Corrupt(_) => StoreKeepsInv(w, s, step);
  }

  // ---------------------------------------------------------------- whole runs

  ghost predicate CanRun(w: World, s: System, steps: seq<Step>)
    decreases |steps|
  {
    steps != [] ==> Enabled(w, s, steps[0]) && CanRun(w, Apply(w, s, steps[0]), steps[1..])
  }

  ghost function Run(w: World, s: System, steps: seq<Step>): System
    requires CanRun(w, s, steps)
    decreases |steps|
  {
    if steps == [] then s else Run(w, Apply(w, s, steps[0]), steps[1..])
  }

  lemma {:induction false} RunKeepsInv(w: World, s: System, steps: seq<Step>)
    requires Honest(w) && Inv(w, s) && CanRun(w, s, steps)
    ensures Inv(w, Run(w, s, steps))
    decreases |steps|
  {
    if steps != [] {
      StepKeepsInv(w, s, steps[0]);
      RunKeepsInv(w, Apply(w, s, steps[0]), steps[1..]);
    }
  }

  ghost function Reached(w: World, steps: seq<Step>): System
    requires CanRun(w, Initial(), steps)
  {
    Run(w, Initial(), steps)
  }

  lemma InitialInv(w: World)
    ensures Inv(w, Initial())
  {
    F.InitialInv<Track>();
    hide F.Inv;
  }

  lemma ReachedInv(w: World, steps: seq<Step>)
    requires Honest(w) && CanRun(w, Initial(), steps)
    ensures Inv(w, Reached(w, steps))
  {
    InitialInv(w);
    RunKeepsInv(w, Initial(), steps);
    hide Inv, CanRun, Run, Honest;
  }

  // What a lookup has been answered, if it has.
  function AnswerTo(s: System, l: nat): Option<Reply>
  {
    if l >= |s.lookups| then None else
    match s.lookups[l].stage
    case Hit(reply) => Some(reply)
    case Joined(c) =>
      if c < |s.flights.callers| && s.flights.callers[c].Attached? && s.flights.callers[c].status.Answered?
      then Some(s.flights.callers[c].status.reply) else None
    case _ => None
  }

  // The main result. However lookups, runs and a store that misses, drops, fails or spoils
  // entries interleave, a track answered is the track the upstream knows for that query,
  // apart from the cached mark, which tells a hit; "not found" is answered only if the
  // upstream does not know the query; any other failure is one of the upstream's or of the
  // run, never of the store, and never comes from the cache.
  lemma LookupsAreTransparent(w: World, steps: seq<Step>, l: nat)
    requires Honest(w) && CanRun(w, Initial(), steps) && AnswerTo(Reached(w, steps), l).Some?
    ensures var lookup := Reached(w, steps).lookups[l];
      match AnswerTo(Reached(w, steps), l).value
      case Value(t) => w.truth(lookup.query) == Some(t.(cached := false)) && t.cached == lookup.stage.Hit?
      case Failed(e) =>
        if e == NOT_FOUND then w.truth(lookup.query).None?
        else (w.mayFail(e) || e == PANICKED) && !lookup.stage.Hit?
  {
    ReachedInv(w, steps);
    var s := Reached(w, steps);
    var lookup := s.lookups[l];
    assert LookupOk(w, s.flights.callers, lookup);
    hide KeyOf;
    if lookup.stage.Joined? {
      var caller := s.flights.callers[lookup.stage.caller];
      assert F.CallerOk(s.flights, caller);
      assert FitsKey(w, caller.key, caller.status.reply);
      assert Fits(w, lookup.query, caller.status.reply);
    }
  }

  // Two lookups with the same words, at whatever times of a run and by whatever ways they
  // were answered, got the same track.
  lemma SameWordsSameTrack(w: World, steps: seq<Step>, l: nat, m: nat)
    requires Honest(w) && CanRun(w, Initial(), steps)
    requires var s := Reached(w, steps);
      && AnswerTo(s, l).Some? && AnswerTo(s, l).value.Value? && AnswerTo(s, m).Some? && AnswerTo(s, m).value.Value?
      && SameWords(w.lower, s.lookups[l].query, s.lookups[m].query)
    ensures var s := Reached(w, steps);
      AnswerTo(s, l).value.value.(cached := false) == AnswerTo(s, m).value.value.(cached := false)
  {
    LookupsAreTransparent(w, steps, l);
    LookupsAreTransparent(w, steps, m);
  }

  // Only tracks and "not found" are ever stored, each for a positive time and each the
  // upstream's answer to every query that shares the key.
  lemma StoreHoldsOnlyTruth(w: World, steps: seq<Step>, q: Query)
    requires Honest(w) && CanRun(w, Initial(), steps)
    requires var s := Reached(w, steps); var key := KeyOf(w.lower, q); key in s.store && s.store[key].Json?
    ensures Reached(w, steps).store[KeyOf(w.lower, q)].entry == EntryOf(w.truth(q)) && TtlOf(w.ttls, w.truth(q)) > 0
  {
    ReachedInv(w, steps);
    hide KeyOf;
    assert RawIsTrue(w, KeyOf(w.lower, q), Reached(w, steps).store[KeyOf(w.lower, q)]);
  }

  // Every lookup that got past the cache read is counted once: as a hit, as the miss that
  // started a run, or as coalesced into one.
  lemma LookupsAreCountedOnce(w: World, steps: seq<Step>)
    requires Honest(w) && CanRun(w, Initial(), steps)
    ensures var s := Reached(w, steps);
      && s.hits == Count(WasHit, s.lookups)
      && s.flights.leaders == |s.flights.flights|
      && s.flights.leaders + s.flights.coalesced == Count(WasJoined, s.lookups)
  {
    ReachedInv(w, steps);
  }

  // ---------------------------------------------------------------- the searcher object

  // The clock and context around one store operation, and whether the store fails it.
  datatype Access = Access(start: Time, end: Time, fails: bool, ctxEnded: bool)

  lemma ReadChangesLookup(w: World, s: System, l: nat, served: bool)
    requires AtStage(s, l, Asked)
    ensures Enabled(w, s, Read(l, served))
    ensures var key, t := KeyOf(w.lower, s.lookups[l].query), Apply(w, s, Read(l, served));
      && t.store == s.store && l < |t.lookups|
      && if served && key in s.store && s.store[key].Json? then
           t.lookups[l].stage == Hit(AnswerFrom(s.store[key].entry)) && t.hits == s.hits + 1
         else t.lookups[l].stage == Missed && t.hits == s.hits
  {
    hide KeyOf, AnswerFrom;
  }

  lemma SaveChangesStore(w: World, s: System, f: nat, stored: bool)
    requires Enabled(w, s, Save(f, stored))
    ensures f < |s.work| && !s.work[f].Searching? && f < |s.flights.flights|
    ensures var t := Apply(w, s, Save(f, stored));
      && t.lookups == s.lookups && t.hits == s.hits
      && t.store == SavedStore(w.ttls, s.store, s.flights.flights[f].key, s.work[f].reply, stored)
  {
  }

  // What a flight's function saves is served: a lookup of the same key that reads the store
  // next is a hit, with the flight's track marked or its "not found".
  lemma SavedAnswerIsServed(w: World, s: System, f: nat, l: nat)
    requires Honest(w) && Inv(w, s) && Enabled(w, s, Save(f, true)) && AtStage(s, l, Asked)
    requires KeyOf(w.lower, s.lookups[l].query) == s.flights.flights[f].key
    ensures var t, reply := Apply(w, Apply(w, s, Save(f, true)), Read(l, true)), s.work[f].reply;
      && (reply.Value? && (if |reply.value.recordingTags| < 3 then w.ttls.lowData else w.ttls.found) > 0 ==>
           t.lookups[l].stage == Hit(F.Value(reply.value.(cached := true))))
      && (reply == F.Failed(NOT_FOUND) && w.ttls.negative > 0 ==> t.lookups[l].stage == Hit(reply))
  {
    var key, reply, saved := s.flights.flights[f].key, s.work[f].reply, Apply(w, s, Save(f, true));
    SaveChangesStore(w, s, f, true);
    WorkIsFromClient(w, s, f, s.lookups[l].query);
    hide Inv, Honest, Apply, Enabled, KeyOf;
    ReadChangesLookup(w, saved, l, true);
    SavedEntry(w.ttls, s.store, key, reply);
  }

  lemma WorkIsFromClient(w: World, s: System, f: nat, q: Query)
    requires Honest(w) && Inv(w, s) && f < |s.work| && !s.work[f].Searching?
    requires f < |s.flights.flights| && KeyOf(w.lower, q) == s.flights.flights[f].key
    ensures s.work[f].reply.Value? ==> T.FromClient(s.work[f].reply.value)
  {
    hide KeyOf, F.Inv, StoreIsTrue, LookupsOk, Counted;
    assert WorkOk(w, s.flights.flights[f].key, s.work[f]);
    assert Fits(w, q, s.work[f].reply);
  }

  // What is stored for a track or a "not found" answers with it.
  lemma SavedEntry(ttls: Ttls, store: map<F.Key, Raw>, key: F.Key, reply: Reply)
    requires reply.Value? ==> T.FromClient(reply.value)
    ensures var after := SavedStore(ttls, store, key, reply, true);
      && (reply.Value? && (if |reply.value.recordingTags| < 3 then ttls.lowData else ttls.found) > 0 ==>
           && key in after && after[key].Json?
           && AnswerFrom(after[key].entry) == F.Value(reply.value.(cached := true)))
      && (reply == F.Failed(NOT_FOUND) && ttls.negative > 0 ==>
           key in after && after[key].Json? && AnswerFrom(after[key].entry) == reply)
  {
    if reply.Value? {
      RoundTrip(reply.value);
      hide ToEntry, FromEntry;
    }
  }

  // The store and the hit counter as the source keeps them; system is the whole of lookups
  // and runs the searcher acts in, under world.
  class Searcher {
    const core: Core<Raw>
    const ttls: Ttls
    var store: map<F.Key, Raw>
    var hits: nat
    ghost const world: World
    ghost var system: System

    ghost predicate Valid()
      reads this, core
    {
      && core.Valid() && Honest(world) && Inv(world, system)
      && store == system.store && hits == system.hits && ttls == world.ttls
    }

    constructor (core: Core<Raw>, ttls: Ttls, ghost world: World)
      requires core.Valid() && Honest(world) && ttls == world.ttls
      ensures Valid() && this.core == core && this.world == world && system == Initial()
    {
      this.core, this.ttls, store, hits := core, ttls, map[], 0;
      this.world, system := world, Initial();
      new;
      InitialInv(world);
    }

    // Whether an access starting now reaches a working store.
    ghost predicate Reaches(access: Access)
      reads core
    {
      !access.fails && !Bypassed(core.window, access.start)
    }

    // The cache read of lookup l, exactly the read step: None sends the lookup on to the
    // flights, and an answer is what the stored entry says.
    method ReadCache(ghost l: nat, key: F.Key, access: Access) returns (answer: Option<Reply>)
      requires Valid() && AtStage(system, l, Asked) && key == KeyOf(world.lower, system.lookups[l].query)
      modifies this, core
      ensures Valid() && system == Apply(world, old(system), Read(l, old(Reaches(access))))
      ensures system.lookups[l].stage == if answer.Some? then Hit(answer.value) else Missed
      ensures answer.Some? <==>
              !access.fails && old(core.window).until <= access.start && key in store && store[key].Json?
    {
      hide Inv, Honest, KeyOf, Apply, Enabled;
      ghost var served := Reaches(access);
      ReadChangesLookup(world, system, l, served);
      StepKeepsInv(world, system, Read(l, served));
      system := Apply(world, system, Read(l, served));
      var outcome := if access.fails then StoreError else Got(if key in store then Some(store[key]) else None);
      var raw := core.Get(access.start, access.end, outcome, access.ctxEnded);
      if raw.None? || raw.value.Garbage? {
        return None;
      }
      hits := hits + 1;
      var e := raw.value.entry;
      if !e.found || e.track.None? {
        return Some(F.Failed(NOT_FOUND));
      }
      var t := ReadEntry(e.track.value);
      return Some(F.Value(t));
    }

    // A track or "not found" is stored for its time, any other failure is not, and a failing
    // store is never heard of.
    method Keep(key: F.Key, reply: Reply, access: Access) returns (keptFor: Option<int>)
      requires core.Valid()
      modifies this`store, core
      ensures core.Valid() && store == SavedStore(ttls, old(store), key, reply, old(Reaches(access)))
      ensures reply.Value? ==>
                var time := if |reply.value.recordingTags| < 3 then ttls.lowData else ttls.found;
                if !access.fails && old(core.window).until <= access.start && time > 0 then
                  keptFor == Some(time) && store == old(store)[key := Json(Entry(true, Some(ToEntry(reply.value))))]
                else keptFor == None && store == old(store)
      ensures reply == F.Failed(NOT_FOUND) ==>
                if !access.fails && old(core.window).until <= access.start && ttls.negative > 0 then
                  keptFor == Some(ttls.negative) && store == old(store)[key := Json(Entry(false, None))]
                else keptFor == None && store == old(store)
      ensures reply.Failed? && reply.error != NOT_FOUND ==> keptFor == None && store == old(store)
    {
      keptFor := None;
      match reply
      case Value(t) =>
        var ttl := ttls.found;
        if |t.recordingTags| < LOW_DATA_TAGS {
          ttl := ttls.lowData;
        }
        var tags := ToEntryTags(t.recordingTags);
        var stored := core.Set(access.start, access.end, ttl, access.fails, access.ctxEnded);
        if stored {
          keptFor := Some(ttl);
          store := store[key := Json(Entry(true, Some(EntryTrack(t.id, t.title, t.artist, t.artistId, tags))))];
        }
      case Failed(e) =>
        if e == NOT_FOUND {
          var stored := core.Set(access.start, access.end, ttls.negative, access.fails, access.ctxEnded);
          if stored {
            keptFor := Some(ttls.negative);
            store := store[key := Json(Entry(false, None))];
          }
        }
    }

    // The end of the function of flight f takes exactly the save step.
    method SaveReply(ghost f: nat, key: F.Key, reply: Reply, access: Access)
      requires Valid() && Enabled(world, system, Save(f, Reaches(access)))
      requires key == system.flights.flights[f].key && reply == system.work[f].reply
      modifies this, core
      ensures Valid() && system == Apply(world, old(system), Save(f, old(Reaches(access))))
    {
      hide Inv, Honest, SavedStore, Apply, Enabled;
      ghost var before, stored := system, Reaches(access);
      StepKeepsInv(world, before, Save(f, stored));
      SaveChangesStore(world, before, f, stored);
      var _ := Keep(key, reply, access);
      system := Apply(world, before, Save(f, stored));
    }
  }
}
