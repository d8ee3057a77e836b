// From search results to a track (internal/provider/musicbrainz.go): filter by score and
// credit, pick the five best tagged recordings, merge their tags and sort.
module MusicBrainz {
  import opened Collections

  const MIN_SCORE := 90
  const MAX_MERGED := 5

  datatype Tag = Tag(name: string, count: int)
  datatype ArtistRef = ArtistRef(id: string, name: string)
  datatype CreditEntry = CreditEntry(name: string, joinPhrase: string, artist: ArtistRef)

  datatype Recording = Recording(id: string, score: int, title: string, credit: seq<CreditEntry>,
                                 tags: seq<Tag>, genres: seq<Tag>)

  datatype TagSource = NoTags | RecordingTags | ArtistTags | MixedTags

  datatype Track = Track(id: string, title: string, artist: string, artistId: string, tags: seq<string>,
                         recordingTags: seq<Tag>, artistTags: seq<Tag>, tagSource: TagSource, cached: bool)

  // An accepted result with the credited artist that matched the request.
  datatype Match = Match(rec: Recording, artist: ArtistRef)

  // What the code takes from Unicode: fold is strings.ToLower(strings.TrimSpace(s)) for tag
  // names, artistForm is normalizeArtist. Both are arbitrary functions here.
  datatype Text = Text(fold: string -> string, artistForm: string -> string)

  // ---------------------------------------------------------------- tag lists

  ghost predicate DistinctNames(tags: seq<Tag>)
  {
    forall i, j :: 0 <= i < j < |tags| ==> tags[i].name != tags[j].name
  }

  function Larger(x: int, y: int): int { if y > x then y else x }
  function Sum(x: int, y: int): int { x + y }

  // One tag added to a list: combined with the entry of its name, or appended.
  function Put(tags: seq<Tag>, t: Tag, combine: (int, int) -> int): seq<Tag>
  {
    if tags == [] then [t]
    else if tags[0].name == t.name then [Tag(t.name, combine(tags[0].count, t.count))] + tags[1..]
    else [tags[0]] + Put(tags[1..], t, combine)
  }

  function Putting(combine: (int, int) -> int): (seq<Tag>, Tag) -> seq<Tag>
  {
    (tags: seq<Tag>, t: Tag) => if t.name == "" then tags else Put(tags, t, combine)
  }

  function Folded(text: Text): Tag -> Tag { (t: Tag) => Tag(text.fold(t.name), t.count) }

  function Flatten<T>(groups: seq<seq<T>>): seq<T>
  {
    if groups == [] then [] else Flatten(groups[..|groups| - 1]) + groups[|groups| - 1]
  }

  function Merged(text: Text, entries: seq<Tag>): seq<Tag>
  {
    Fold(Putting(Larger), [], Map(Folded(text), entries))
  }

  lemma {:induction false} PutAt(tags: seq<Tag>, t: Tag, combine: (int, int) -> int, i: nat)
    requires DistinctNames(tags) && i < |tags| && tags[i].name == t.name
    ensures Put(tags, t, combine) == tags[i := Tag(t.name, combine(tags[i].count, t.count))]
  {
    if i > 0 {
      assert tags[0].name != t.name;
      PutAt(tags[1..], t, combine, i - 1);
    }
  }

  lemma {:induction false} PutNew(tags: seq<Tag>, t: Tag, combine: (int, int) -> int)
    requires forall u :: u in tags ==> u.name != t.name
    ensures Put(tags, t, combine) == tags + [t]
  {
    if tags != [] {
      assert tags[0] in tags;
      PutNew(tags[1..], t, combine);
    }
  }

  // The code's index: the position of every name in the list.
  ghost predicate Indexes(index: map<string, int>, tags: seq<Tag>)
  {
    && (forall n :: n in index ==> 0 <= index[n] < |tags| && tags[index[n]].name == n)
    && (forall i :: 0 <= i < |tags| ==> tags[i].name in index && index[tags[i].name] == i)
  }

  lemma FoldMapSnoc(text: Text, entries: seq<Tag>, t: Tag)
    ensures Merged(text, entries + [t]) == Putting(Larger)(Merged(text, entries), Folded(text)(t))
  {
    assert Map(Folded(text), entries + [t]) == Map(Folded(text), entries) + [Folded(text)(t)];
    FoldSnoc(Putting(Larger), [], Map(Folded(text), entries), Folded(text)(t));
  }

  // One more entry of the group at hand, and one more group.
  lemma MergedNext(text: Text, before: seq<Tag>, group: seq<Tag>, i: nat)
    requires i < |group|
    ensures Merged(text, before + group[..i + 1])
         == Putting(Larger)(Merged(text, before + group[..i]), Folded(text)(group[i]))
  {
    assert before + group[..i + 1] == (before + group[..i]) + [group[i]];
    FoldMapSnoc(text, before + group[..i], group[i]);
  }

  lemma FlattenNext(groups: seq<seq<Tag>>, g: nat)
    requires g < |groups|
    ensures Flatten(groups[..g + 1]) == Flatten(groups[..g]) + groups[g]
  {
    assert groups[..g + 1][..g] == groups[..g];
  }

  // The body of the loops of mergeTags and sumTags: one entry put into the list.
  method PutEntry(index: map<string, int>, tags: seq<Tag>, t: Tag, combine: (int, int) -> int)
      returns (index': map<string, int>, tags': seq<Tag>)
    requires Indexes(index, tags)
    ensures Indexes(index', tags') && tags' == Put(tags, t, combine)
  {
    if t.name in index {
      var k := index[t.name];
      PutAt(tags, t, combine, k);
      index', tags' := index, tags[k := Tag(t.name, combine(tags[k].count, t.count))];
    } else {
      PutNew(tags, t, combine);
      index', tags' := index[t.name := |tags|], tags + [t];
    }
  }

  method MergeTags(text: Text, groups: seq<seq<Tag>>) returns (tags: seq<Tag>)
    ensures tags == Merged(text, Flatten(groups))
    ensures KeepsHighest(text, Flatten(groups), tags)
  {
    var index: map<string, int> := map[];
    tags := [];
    assert tags == Merged(text, Flatten(groups[..0]));
    hide Merged, Flatten, Put;
    for g := 0 to |groups|
      invariant Indexes(index, tags) && tags == Merged(text, Flatten(groups[..g]))
    {
      var group := groups[g];
      ghost var before := Flatten(groups[..g]);
      assert before + group[..0] == before;
      for i := 0 to |group|
        invariant Indexes(index, tags) && tags == Merged(text, before + group[..i])
      {
        MergedNext(text, before, group, i);
        var name := text.fold(group[i].name);
        if name == "" {
          continue;
        }
        index, tags := PutEntry(index, tags, Tag(name, group[i].count), Larger);
      }
      assert group[..|group|] == group;
      FlattenNext(groups, g);
    }
    assert groups[..|groups|] == groups;
    MergedKeepsHighest(text, Flatten(groups));
  }

  // ---------------------------------------------------------------- lists seen as maps

  ghost function View(tags: seq<Tag>): map<string, int>
  {
    if tags == [] then map[] else View(tags[1..])[tags[0].name := tags[0].count]
  }

  function Combining(combine: (int, int) -> int): (map<string, int>, Tag) -> map<string, int>
  {
    (m: map<string, int>, t: Tag) =>
      if t.name == "" then m
      else m[t.name := if t.name in m then combine(m[t.name], t.count) else t.count]
  }

  lemma {:induction false} ViewHas(tags: seq<Tag>, n: string)
    ensures n in View(tags) <==> exists i :: 0 <= i < |tags| && tags[i].name == n
    ensures DistinctNames(tags) ==> forall i :: 0 <= i < |tags| && tags[i].name == n ==> View(tags)[n] == tags[i].count
  {
    if tags != [] {
      ViewHas(tags[1..], n);
      if n in View(tags[1..]) {
        var i :| 0 <= i < |tags[1..]| && tags[1..][i].name == n;
        assert tags[i + 1].name == n;
      }
      forall i | 0 <= i < |tags| && tags[i].name == n && DistinctNames(tags)
        ensures n in View(tags) && View(tags)[n] == tags[i].count
      {
        if i > 0 {
          assert tags[1..][i - 1].name == n;
        }
      }
    }
  }

  lemma {:induction false} PutKeepsDistinct(tags: seq<Tag>, t: Tag, combine: (int, int) -> int)
    requires DistinctNames(tags)
    ensures DistinctNames(Put(tags, t, combine))
    ensures forall u :: u in Put(tags, t, combine) ==> u.name == t.name || u in tags
  {
    if tags != [] && tags[0].name != t.name {
      var rest := Put(tags[1..], t, combine);
      PutKeepsDistinct(tags[1..], t, combine);
      hide Put;
      forall u | u in rest ensures u.name != tags[0].name && (u.name == t.name || u in tags) {
        if u in tags[1..] {
          var i :| 0 <= i < |tags[1..]| && tags[1..][i] == u;
          assert tags[i + 1] == u;
        }
      }
      assert Put(tags, t, combine) == [tags[0]] + rest by {
        PutSkips(tags, t, combine);
      }
    }
  }

  lemma PutSkips(tags: seq<Tag>, t: Tag, combine: (int, int) -> int)
    requires tags != [] && tags[0].name != t.name
    ensures Put(tags, t, combine) == [tags[0]] + Put(tags[1..], t, combine)
  {
  }

  lemma {:induction false} PutView(tags: seq<Tag>, t: Tag, combine: (int, int) -> int)
    requires DistinctNames(tags) && t.name != ""
    ensures View(Put(tags, t, combine)) == Combining(combine)(View(tags), t)
  {
    if tags != [] {
      if tags[0].name == t.name {
        ViewHas(tags[1..], t.name);
      } else {
        var rest := Put(tags[1..], t, combine);
        PutView(tags[1..], t, combine);
        PutSkips(tags, t, combine);
        hide Put;
        assert ([tags[0]] + rest)[1..] == rest;
      }
    }
  }

  lemma {:induction false} FoldView(combine: (int, int) -> int, entries: seq<Tag>)
    ensures DistinctNames(Fold(Putting(combine), [], entries))
    ensures View(Fold(Putting(combine), [], entries)) == Fold(Combining(combine), map[], entries)
  {
    if entries != [] {
      var last := |entries| - 1;
      FoldView(combine, entries[..last]);
      if entries[last].name != "" {
        PutView(Fold(Putting(combine), [], entries[..last]), entries[last], combine);
        PutKeepsDistinct(Fold(Putting(combine), [], entries[..last]), entries[last], combine);
      }
    }
  }

  // The order in which counts are combined does not matter: true of max and of +.
  ghost predicate Unordered(combine: (int, int) -> int)
  {
    && (forall x, y :: combine(x, y) == combine(y, x))
    && (forall x, y, z :: combine(combine(x, y), z) == combine(combine(x, z), y))
  }

  lemma CountsReorder(combine: (int, int) -> int, c: int, x: int, y: int)
    requires Unordered(combine)
    ensures combine(x, y) == combine(y, x) && combine(combine(c, x), y) == combine(combine(c, y), x)
  {
  }

  lemma CombiningCommutes(combine: (int, int) -> int)
    requires Unordered(combine)
    ensures Commuting(Combining(combine))
  {
    hide Combining, Unordered;
    var step := Combining(combine);
    forall m, x, y ensures step(step(m, x), y) == step(step(m, y), x) {
      CountsReorder(combine, if x.name in m then m[x.name] else 0, x.count, y.count);
      CombiningTwo(combine, m, x, y);
    }
  }

  lemma CombiningTwo(combine: (int, int) -> int, m: map<string, int>, x: Tag, y: Tag)
    requires combine(x.count, y.count) == combine(y.count, x.count)
    requires x.name in m ==>
               combine(combine(m[x.name], x.count), y.count) == combine(combine(m[x.name], y.count), x.count)
    ensures Combining(combine)(Combining(combine)(m, x), y) == Combining(combine)(Combining(combine)(m, y), x)
  {
  }

  lemma {:induction false} ViewDeterminesTags(xs: seq<Tag>, ys: seq<Tag>)
    requires DistinctNames(xs) && DistinctNames(ys) && View(xs) == View(ys)
    ensures multiset(xs) == multiset(ys)
  {
    forall t ensures t in xs <==> t in ys {
      ViewHas(xs, t.name);
      ViewHas(ys, t.name);
    }
    DistinctSameMembers(xs, ys);
  }

  // The merged list depends on the entries only as a multiset, up to its order.
  lemma FoldedTagsPermute(combine: (int, int) -> int, xs: seq<Tag>, ys: seq<Tag>)
    requires Unordered(combine)
    requires multiset(xs) == multiset(ys)
    ensures multiset(Fold(Putting(combine), [], xs)) == multiset(Fold(Putting(combine), [], ys))
  {
    FoldView(combine, xs);
    FoldView(combine, ys);
    CombiningCommutes(combine);
    FoldPermutes(Combining(combine), map[], xs, ys);
    ViewDeterminesTags(Fold(Putting(combine), [], xs), Fold(Putting(combine), [], ys));
  }

  lemma MergedPermutes(text: Text, xs: seq<Tag>, ys: seq<Tag>)
    requires multiset(xs) == multiset(ys)
    ensures multiset(Merged(text, xs)) == multiset(Merged(text, ys))
    ensures DistinctNames(Merged(text, xs))
  {
    MapPermutes(Folded(text), xs, ys);
    FoldedTagsPermute(Larger, Map(Folded(text), xs), Map(Folded(text), ys));
    FoldView(Larger, Map(Folded(text), xs));
  }

  // ---------------------------------------------------------------- order and totals

  predicate Stronger(a: Tag, b: Tag) { if a.count != b.count then a.count > b.count else NameLess(a.name, b.name) }

  function SortTags(tags: seq<Tag>): (r: seq<Tag>)
    ensures multiset(r) == multiset(tags)
  {
    Sort(Stronger, tags)
  }

  lemma StrongerOrders(tags: seq<Tag>)
    ensures Orders(Stronger, tags)
  {
    NamesAreOrdered();
    hide NameLess;
  }

  function AddCount(total: int, t: Tag): int { total + t.count }

  function TotalVotes(tags: seq<Tag>): int { Fold(AddCount, 0, tags) }

  lemma TotalPermutes(xs: seq<Tag>, ys: seq<Tag>)
    requires multiset(xs) == multiset(ys)
    ensures TotalVotes(xs) == TotalVotes(ys)
  {
    FoldPermutes(AddCount, 0, xs, ys);
  }

  lemma {:induction false} TotalFrom(start: int, xs: seq<Tag>)
    ensures Fold(AddCount, start, xs) == start + TotalVotes(xs)
  {
    if xs != [] {
      TotalFrom(start, xs[..|xs| - 1]);
    }
  }

  lemma TotalAppend(xs: seq<Tag>, ys: seq<Tag>)
    ensures TotalVotes(xs + ys) == TotalVotes(xs) + TotalVotes(ys)
  {
    FoldAppend(AddCount, 0, xs, ys);
    TotalFrom(TotalVotes(xs), ys);
  }

  lemma {:induction false} PutTotal(tags: seq<Tag>, t: Tag)
    ensures TotalVotes(Put(tags, t, Sum)) == TotalVotes(tags) + t.count
  {
    if tags == [] {
    } else {
      assert tags == [tags[0]] + tags[1..];
      TotalAppend([tags[0]], tags[1..]);
      if tags[0].name == t.name {
        TotalAppend([Tag(t.name, tags[0].count + t.count)], tags[1..]);
      } else {
        PutTotal(tags[1..], t);
        TotalAppend([tags[0]], Put(tags[1..], t, Sum));
      }
    }
  }

  // Summing lists into one neither loses nor invents votes.
  lemma {:induction false} FoldTotal(entries: seq<Tag>)
    requires forall t :: t in entries ==> t.name != ""
    ensures TotalVotes(Fold(Putting(Sum), [], entries)) == TotalVotes(entries)
  {
    if entries != [] {
      var last := |entries| - 1;
      assert entries[last] in entries;
      assert forall t :: t in entries[..last] ==> t in entries;
      FoldTotal(entries[..last]);
      PutTotal(Fold(Putting(Sum), [], entries[..last]), entries[last]);
    }
  }

  lemma {:induction false} FoldNamesFolded(text: Text, entries: seq<Tag>)
    ensures forall t :: t in Merged(text, entries) ==> t.name != ""
  {
    if entries != [] {
      var last := |entries| - 1;
      FoldNamesFolded(text, entries[..last]);
      var t := Folded(text)(entries[last]);
      assert entries == entries[..last] + [entries[last]];
      FoldMapSnoc(text, entries[..last], entries[last]);
      if t.name != "" {
        FoldView(Larger, Map(Folded(text), entries[..last]));
        PutKeepsDistinct(Merged(text, entries[..last]), t, Larger);
      }
    }
  }

  // ---------------------------------------------------------------- what merging keeps

  // tags has, for every non-empty name the entries fold to, that name once with the highest
  // count an entry gives it, and nothing else.
  ghost predicate KeepsHighest(text: Text, entries: seq<Tag>, tags: seq<Tag>)
  {
    && DistinctNames(tags)
    && (forall t :: t in tags ==> t.name != "" && Given(text, entries, t.name, t.count))
    && (forall e :: e in entries && text.fold(e.name) != "" ==> Listed(tags, text.fold(e.name)))
  }

  // count is the highest that an entry gives the name.
  ghost predicate Given(text: Text, entries: seq<Tag>, name: string, count: int)
  {
    && (exists e :: e in entries && text.fold(e.name) == name && e.count == count)
    && (forall e :: e in entries && text.fold(e.name) == name ==> e.count <= count)
  }

  ghost predicate Listed(tags: seq<Tag>, name: string)
  {
    exists t :: t in tags && t.name == name
  }

  lemma GivenNext(text: Text, entries: seq<Tag>, e: Tag, name: string, count: int)
    requires Given(text, entries, name, count)
    ensures text.fold(e.name) != name ==> Given(text, entries + [e], name, count)
    ensures text.fold(e.name) == name ==> Given(text, entries + [e], name, if e.count > count then e.count else count)
  {
    var more := entries + [e];
    assert forall x :: x in more <==> x in entries || x == e;
    var best :| best in entries && text.fold(best.name) == name && best.count == count;
    assert best in more;
  }

  lemma GivenFirst(text: Text, entries: seq<Tag>, e: Tag)
    requires forall x :: x in entries ==> text.fold(x.name) != text.fold(e.name)
    ensures Given(text, entries + [e], text.fold(e.name), e.count)
  {
    var more := entries + [e];
    assert forall x :: x in more <==> x in entries || x == e;
    assert e in more;
  }

  // The same of the list seen as a map.
  ghost predicate MapsHighest(text: Text, entries: seq<Tag>, m: map<string, int>)
  {
    && (forall n :: n in m ==> n != "" && Given(text, entries, n, m[n]))
    && (forall e :: e in entries && text.fold(e.name) != "" ==> text.fold(e.name) in m)
  }

  lemma MapsHighestNext(text: Text, entries: seq<Tag>, e: Tag, m: map<string, int>)
    requires MapsHighest(text, entries, m)
    ensures MapsHighest(text, entries + [e], Combining(Larger)(m, Folded(text)(e)))
  {
    var name, next := text.fold(e.name), Combining(Larger)(m, Folded(text)(e));
    forall n | n in next ensures n != "" && Given(text, entries + [e], n, next[n]) {
      if n in m {
        GivenNext(text, entries, e, n, m[n]);
      } else {
        GivenFirst(text, entries, e);
      }
    }
    hide Given;
    forall x | x in entries + [e] && text.fold(x.name) != "" ensures text.fold(x.name) in next {
      assert x in entries || x == e;
    }
  }

  lemma {:induction false} FoldMapsHighest(text: Text, entries: seq<Tag>)
    ensures MapsHighest(text, entries, Fold(Combining(Larger), map[], Map(Folded(text), entries)))
  {
    if entries != [] {
      var front, e := entries[..|entries| - 1], entries[|entries| - 1];
      FoldMapsHighest(text, front);
      MapsHighestNext(text, front, e, Fold(Combining(Larger), map[], Map(Folded(text), front)));
      hide MapsHighest, Combining;
      assert entries == front + [e];
      assert Map(Folded(text), entries) == Map(Folded(text), front) + [Folded(text)(e)];
      FoldSnoc(Combining(Larger), map[], Map(Folded(text), front), Folded(text)(e));
    }
  }

  // Merging keeps, of all the counts a name is given, the highest.
  lemma MergedKeepsHighest(text: Text, entries: seq<Tag>)
    ensures KeepsHighest(text, entries, Merged(text, entries))
  {
    var tags := Merged(text, entries);
    FoldView(Larger, Map(Folded(text), entries));
    FoldMapsHighest(text, entries);
    assert MapsHighest(text, entries, View(tags));
    hide Merged, Given, View;
    forall t | t in tags ensures t.name != "" && Given(text, entries, t.name, t.count) {
      var i :| 0 <= i < |tags| && tags[i] == t;
      ViewHas(tags, t.name);
    }
    forall e | e in entries && text.fold(e.name) != "" ensures Listed(tags, text.fold(e.name)) {
      ViewHas(tags, text.fold(e.name));
      var i :| 0 <= i < |tags| && tags[i].name == text.fold(e.name);
      assert tags[i] in tags;
    }
  }

  // The strongest tag first, equally strong ones by name.
  lemma StrongestFirst(tags: seq<Tag>, i: nat, j: nat)
    requires DistinctNames(tags) && i < j < |tags|
    ensures var r := SortTags(tags);
      |r| == |tags| && (r[i].count > r[j].count || (r[i].count == r[j].count && NameLess(r[i].name, r[j].name)))
  {
    var r := SortTags(tags);
    StrongerOrders(tags);
    SortSorted(Stronger, tags);
    PermutationMembers(tags, r);
    DistinctPermutes(tags, r);
    assert r[i] in tags && r[j] in tags && r[i] != r[j];
  }

  // ---------------------------------------------------------------- matching recordings

  predicate CreditsEntry(text: Text, entry: CreditEntry, want: string)
  {
    text.artistForm(entry.name) == want || text.artistForm(entry.artist.name) == want
  }

  function FullCredit(credit: seq<CreditEntry>): string
  {
    if credit == [] then "" else
      var last := credit[|credit| - 1];
      FullCredit(credit[..|credit| - 1]) + last.name + last.joinPhrase
  }

  function Credited(text: Text, credit: seq<CreditEntry>, want: string): Option<ArtistRef>
  {
    if want == "" then None
    else if i :| 0 <= i < |credit| && CreditsEntry(text, credit[i], want)
                 && forall j :: 0 <= j < i ==> !CreditsEntry(text, credit[j], want)
    then Some(ArtistRef(credit[i].artist.id, credit[i].name))
    else if |credit| > 1 && text.artistForm(FullCredit(credit)) == want
    then Some(ArtistRef(credit[0].artist.id, FullCredit(credit)))
    else None
  }

  // Entry i is the first of the credit that names want.
  predicate FirstToName(text: Text, credit: seq<CreditEntry>, want: string, i: nat)
  {
    && i < |credit|
    && (text.artistForm(credit[i].name) == want || text.artistForm(credit[i].artist.name) == want)
    && forall j :: 0 <= j < i ==>
         text.artistForm(credit[j].name) != want && text.artistForm(credit[j].artist.name) != want
  }

  // A credit names an artist by the first entry that does, under its credited or its canonical
  // name; a credit of several that no entry alone names, by all of it; nothing names nobody.
  lemma CreditNamesTheArtist(text: Text, credit: seq<CreditEntry>, want: string)
    ensures want == "" ==> Credited(text, credit, want) == None
    ensures forall i: nat :: want != "" && FirstToName(text, credit, want, i) ==>
              Credited(text, credit, want) == Some(ArtistRef(credit[i].artist.id, credit[i].name))
    ensures want != "" && (forall i :: 0 <= i < |credit| ==>
                text.artistForm(credit[i].name) != want && text.artistForm(credit[i].artist.name) != want) ==>
              Credited(text, credit, want) ==
                if |credit| > 1 && text.artistForm(FullCredit(credit)) == want
                then Some(ArtistRef(credit[0].artist.id, FullCredit(credit))) else None
  {
    forall i: nat | want != "" && FirstToName(text, credit, want, i)
      ensures Credited(text, credit, want) == Some(ArtistRef(credit[i].artist.id, credit[i].name))
    {
      assert CreditsEntry(text, credit[i], want) && forall j :: 0 <= j < i ==> !CreditsEntry(text, credit[j], want);
      var k :| 0 <= k < |credit| && CreditsEntry(text, credit[k], want)
               && (forall j :: 0 <= j < k ==> !CreditsEntry(text, credit[j], want))
               && Credited(text, credit, want) == Some(ArtistRef(credit[k].artist.id, credit[k].name));
      assert k == i;
    }
  }

  // The whole credit is its names and join phrases, one after the other.
  lemma FullCreditNext(credit: seq<CreditEntry>, e: CreditEntry)
    ensures FullCredit([]) == ""
    ensures FullCredit(credit + [e]) == FullCredit(credit) + e.name + e.joinPhrase
  {
    assert (credit + [e])[..|credit|] == credit;
  }
}
