// The listening session of the player (frontend/src/services/listening.js): which track is
// selected and since when, turned into skip, complete and like events.
module Listening {
  import opened Collections

  const SKIP_THRESHOLD_MS := 30_000
  const MAX_LISTEN_MS := 86_400_000

  type Time = real

  datatype Kind = Skip | Complete | Like

  datatype Event = Event(trackId: string, kind: Kind, listenMs: int, prevTrackId: Option<string>)
  {
    predicate Closing() { !kind.Like? }
  }

  datatype Current = Current(trackId: string, prevTrackId: Option<string>, since: Time, liked: bool)

  // A call with the readings of the clock it may take; select reads it once to close the
  // track being left and once more to start the new one.
  datatype Call = Select(trackId: string, closedAt: Time, startedAt: Time) | Finish(at: Time) | LikeIt(at: Time)

  function EventTypeFor(listenMs: int): Kind { if listenMs < SKIP_THRESHOLD_MS then Skip else Complete }

  // Math.round rounds halves up.
  function ClampListenMs(ms: real): (r: int)
    ensures 0 <= r <= 86_400_000
    ensures ms < 0.0 ==> r == 0
    ensures ms >= 86_400_000.0 ==> r == 86_400_000
    ensures -0.5 <= ms < MAX_LISTEN_MS as real ==> r as real - 0.5 <= ms < r as real + 0.5
  {
    var rounded := (ms + 0.5).Floor;
    if rounded < 0 then 0 else if rounded > MAX_LISTEN_MS then MAX_LISTEN_MS else rounded
  }

  // The clock reading that an event of the call is measured with.
  function ReadAt(call: Call): Time { if call.Select? then call.closedAt else call.at }

  function Closed(c: Current, at: Time): Event
  {
    var ms := ClampListenMs(at - c.since);
    Event(c.trackId, EventTypeFor(ms), ms, c.prevTrackId)
  }

  function Next(current: Option<Current>, call: Call): Option<Current>
  {
    match call
    case Select(id, _, startedAt) =>
      if current.Some? && current.value.trackId == id then current
      else Some(Current(id, if current.Some? then Some(current.value.trackId) else None, startedAt, false))
    case Finish(_) => None
    case LikeIt(_) => if current.Some? then Some(current.value.(liked := true)) else None
  }

  function Emitted(current: Option<Current>, call: Call): Option<Event>
  {
    if current.None? then None else
    match call
    case Select(id, closedAt, _) => if current.value.trackId == id then None else Some(Closed(current.value, closedAt))
    case Finish(at) => Some(Closed(current.value, at))
    case LikeIt(at) =>
      if current.value.liked then None
      else Some(Event(current.value.trackId, Like, ClampListenMs(at - current.value.since), current.value.prevTrackId))
  }

  class ListeningSession {
    var current: Option<Current>

    constructor ()
      ensures current == None
    {
      current := None;
    }

    method FinishTrack(at: Time) returns (event: Option<Event>)
      modifies this
      ensures current == Next(old(current), Finish(at)) && event == Emitted(old(current), Finish(at))
    {
      if current.None? {
        return None;
      }
      var listenMs := ClampListenMs(at - current.value.since);
      event := Some(Event(current.value.trackId, EventTypeFor(listenMs), listenMs, current.value.prevTrackId));
      current := None;
    }

    method SelectTrack(trackId: string, closedAt: Time, startedAt: Time) returns (event: Option<Event>)
      modifies this
      ensures current == Next(old(current), Select(trackId, closedAt, startedAt))
      ensures event == Emitted(old(current), Select(trackId, closedAt, startedAt))
    {
      if current.Some? && current.value.trackId == trackId {
        return None;
      }
      event := FinishTrack(closedAt);
      current := Some(Current(trackId, if event.Some? then Some(event.value.trackId) else None, startedAt, false));
    }

    method LikeTrack(at: Time) returns (event: Option<Event>)
      modifies this
      ensures current == Next(old(current), LikeIt(at)) && event == Emitted(old(current), LikeIt(at))
    {
      if current.None? || current.value.liked {
        return None;
      }
      current := Some(current.value.(liked := true));
      var listenMs := ClampListenMs(at - current.value.since);
      event := Some(Event(current.value.trackId, Like, listenMs, current.value.prevTrackId));
    }
  }

  // ---------------------------------------------------------------- histories of calls

  function After(calls: seq<Call>): Option<Current>
  {
    if calls == [] then None else Next(After(calls[..|calls| - 1]), calls[|calls| - 1])
  }

  function EventAt(calls: seq<Call>, k: nat): Option<Event>
    requires k < |calls|
  {
    Emitted(After(calls[..k]), calls[k])
  }

  // Told from the calls alone: what is selected is what the last select or finish says.
  function Selected(calls: seq<Call>): Option<string>
  {
    if calls == [] then None else
    match calls[|calls| - 1]
    case Select(id, _, _) => Some(id)
    case Finish(_) => None
    case LikeIt(_) => Selected(calls[..|calls| - 1])
  }

  // The selection in force after the calls was started by call s: it selected the track, and
  // no call since has finished it or selected another.
  ghost predicate StartedBy(calls: seq<Call>, s: nat)
  {
    && s < |calls| && calls[s].Select?
    && Selected(calls[..s]) != Some(calls[s].trackId)
    && forall i :: s < i < |calls| ==> calls[i].LikeIt? || (calls[i].Select? && calls[i].trackId == calls[s].trackId)
  }

  ghost predicate LikedSince(calls: seq<Call>, s: nat)
  {
    exists i :: s < i < |calls| && calls[i].LikeIt?
  }

  // The session's record is the history of the selection.
  ghost predicate Records(calls: seq<Call>, s: nat, c: Current)
  {
    && StartedBy(calls, s)
    && Selected(calls) == Some(c.trackId) == Some(calls[s].trackId)
    && c.since == calls[s].startedAt
    && c.prevTrackId == Selected(calls[..s])
    && (c.liked <==> LikedSince(calls, s))
  }

  lemma {:induction false} SessionRecordsHistory(calls: seq<Call>) returns (s: nat)
    ensures After(calls).None? <==> Selected(calls).None?
    ensures After(calls).Some? ==> Records(calls, s, After(calls).value)
  {
    s := 0;
    if calls != [] {
      var last := |calls| - 1;
      var before := calls[..last];
      s := SessionRecordsHistory(before);
      if After(before).Some? && After(calls).Some? {
        if After(before).value.trackId == After(calls).value.trackId {
          RecordGoesOn(before, calls[last], s, After(before).value);
          assert before + [calls[last]] == calls;
          return s;
        }
      }
      s := last;
    }
  }

  lemma LikesGoOn(before: seq<Call>, call: Call, s: nat)
    requires s < |before|
    ensures LikedSince(before + [call], s) <==> LikedSince(before, s) || call.LikeIt?
  {
    var calls := before + [call];
    assert calls[|before|] == call;
    if LikedSince(before, s) {
      var i :| s < i < |before| && before[i].LikeIt?;
      assert calls[i].LikeIt?;
    }
    if LikedSince(calls, s) && !call.LikeIt? {
      var i :| s < i < |calls| && calls[i].LikeIt?;
      assert before[i].LikeIt?;
    }
  }

  lemma RecordGoesOn(before: seq<Call>, call: Call, s: nat, c: Current)
    requires Records(before, s, c)
    requires Next(Some(c), call).Some? && Next(Some(c), call).value.trackId == c.trackId
    ensures Records(before + [call], s, Next(Some(c), call).value)
  {
    var calls := before + [call];
    LikesGoOn(before, call, s);
    hide LikedSince;
    assert calls[..s] == before[..s] && calls[..|calls| - 1] == before;
  }

  // A selection has one start.
  lemma OneStart(calls: seq<Call>, s: nat, t: nat)
    requires StartedBy(calls, s) && StartedBy(calls, t)
    ensures s == t
  {
    if s < t {
      StillSelected(calls[..t], s);
    } else if t < s {
      StillSelected(calls[..s], t);
    }
  }

  lemma {:induction false} StillSelected(calls: seq<Call>, s: nat)
    requires s < |calls| && calls[s].Select?
    requires forall i :: s < i < |calls| ==>
               calls[i].LikeIt? || (calls[i].Select? && calls[i].trackId == calls[s].trackId)
    ensures Selected(calls) == Some(calls[s].trackId)
    decreases |calls|
  {
    var last := |calls| - 1;
    if s < last && calls[last].LikeIt? {
      StillSelected(calls[..last], s);
    }
  }

  // ---------------------------------------------------------------- what every history of calls reports

  // The main result, over every sequence of calls and any clock, read off the calls alone. A
  // call closes the selection in force exactly if it finishes it or selects another track; it
  // likes it exactly if it is the selection's first like; it reports nothing otherwise. What
  // is reported is the selected track, how long it was selected, clamped to a day, whether
  // that was under 30 seconds, and the track that was selected when this one was.
  lemma EventsTellTheHistory(calls: seq<Call>, k: nat, s: nat)
    requires k < |calls| && StartedBy(calls[..k], s)
    ensures var closes := calls[k].Finish? || (calls[k].Select? && calls[k].trackId != calls[s].trackId);
      var likes := calls[k].LikeIt? && forall i :: s < i < k ==> !calls[i].LikeIt?;
      var event := EventAt(calls, k);
      && (event.Some? <==> closes || likes)
      && (event.Some? ==>
        && event.value.trackId == calls[s].trackId
        && event.value.prevTrackId == Selected(calls[..s])
        && event.value.listenMs == ClampListenMs(ReadAt(calls[k]) - calls[s].startedAt)
        && (likes <==> event.value.kind.Like?)
        && (closes ==> event.value.kind == if event.value.listenMs < 30_000 then Skip else Complete))
  {
    StillSelected(calls[..k], s);
    var t := SessionRecordsHistory(calls[..k]);
    OneStart(calls[..k], s, t);
    assert calls[..k][..s] == calls[..s];
    assert LikedSince(calls[..k], s) <==> exists i :: s < i < k && calls[i].LikeIt? by {
      if i :| s < i < k && calls[i].LikeIt? {
        assert calls[..k][i].LikeIt?;
      }
    }
  }

  // Nothing is reported while nothing is selected.
  lemma SilentWhenIdle(calls: seq<Call>, k: nat)
    requires k < |calls| && Selected(calls[..k]).None?
    ensures EventAt(calls, k).None?
  {
    var _ := SessionRecordsHistory(calls[..k]);
  }

  // Each selection, named by the call that started it, has at most one closing event and at
  // most one like.
  lemma OneClosingOneLike(calls: seq<Call>, j: nat, k: nat, s: nat)
    requires j < k < |calls| && StartedBy(calls[..j], s) && StartedBy(calls[..k], s)
    requires EventAt(calls, j).Some? && EventAt(calls, k).Some?
    ensures EventAt(calls, j).value.kind.Like? && EventAt(calls, k).value.Closing()
  {
    EventsTellTheHistory(calls, j, s);
    EventsTellTheHistory(calls, k, s);
    assert calls[..k][j] == calls[j];
  }

  // Events chain: an event names a previous track exactly if the call that started its
  // selection closed another one, and it names the track of that closing event, which is
  // never its own.
  lemma EventsChain(calls: seq<Call>, k: nat) returns (s: nat)
    requires k < |calls| && EventAt(calls, k).Some?
    ensures s < k && StartedBy(calls[..k], s)
    ensures var e := EventAt(calls, k).value;
      && e.prevTrackId == (if EventAt(calls, s).Some? then Some(EventAt(calls, s).value.trackId) else None)
      && (EventAt(calls, s).Some? ==> EventAt(calls, s).value.Closing())
      && e.prevTrackId != Some(e.trackId)
      && 0 <= e.listenMs <= 86_400_000
  {
    s := SessionRecordsHistory(calls[..k]);
    EventsTellTheHistory(calls, k, s);
    assert calls[..k][..s] == calls[..s] && calls[..k][s] == calls[s];
    if Selected(calls[..s]).None? {
      SilentWhenIdle(calls, s);
    } else {
      var r := SessionRecordsHistory(calls[..s]);
      EventsTellTheHistory(calls, s, r);
      assert calls[..s][r] == calls[r];
    }
  }
}
