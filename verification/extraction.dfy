/** The collector's work list: every video reference of a seed-user run that
    has an id and a url (synthesised from the owner's handle when missing),
    de-duplicated by stringified id keeping the first occurrence
    (`extract_video_urls_from_seed_run`). */
module Extraction {
  import opened Python

  /** One video to enrich; every field is the `str()` of the source value. */
  datatype WorkItem = WorkItem(videoId: string, url: string, username: string)

  /** The owner handle used when the profile carries none. */
  const UnknownUser: string := "unknown"

  /** The canonical page of a video. */
  function VideoUrl(username: string, vid: string): string {
    "https://www.tiktok.com/@" + username + "/video/" + vid
  }

  /** The work item one video reference contributes, if any: a reference needs
      a truthy id, and a truthy url of its own unless its owner is known, in
      which case the canonical url is built from the owner and the id. */
  function VideoCandidate(v: Fields, username: Json): (c: Option<WorkItem>)
    ensures var vid := Get(v, "video_id");
            var url := Get(v, "url");
            && (c.Some? <==> Truthy(vid) && (Truthy(url) || (Truthy(username) && username != JStr(UnknownUser))))
            && (c.Some? ==> c.value.videoId == Str(vid) && c.value.username == Str(username))
            && (c.Some? && Truthy(url) ==> c.value.url == Str(url))
            && (c.Some? && !Truthy(url) ==> c.value.url == VideoUrl(Str(username), Str(vid)))
            && (c.Some? ==> c.value.videoId != "" && c.value.url != "")
  {
    var vid := Get(v, "video_id");
    var url0 := Get(v, "url");
    var url := if !Truthy(url0) && Truthy(vid) && Truthy(username) && username != JStr(UnknownUser)
               then JStr(VideoUrl(Str(username), Str(vid)))
               else url0;
    if Truthy(vid) && Truthy(url) then
      TruthyStrNonEmpty(vid);
      TruthyStrNonEmpty(url);
      Some(WorkItem(Str(vid), Str(url), Str(username)))
    else None
  }

  /** What one element of a result's `videos` list contributes when it is a
      dict; an element that is not one contributes nothing here (the loop
      raises on it instead). */
  function CandidateAt(v: Json, username: Json): Option<WorkItem> {
    if v.JDict? then VideoCandidate(v.fields, username) else None
  }

  function CandidatesAt(vs: seq<Json>, username: Json): seq<Option<WorkItem>> {
    seq(|vs|, i requires 0 <= i < |vs| => CandidateAt(vs[i], username))
  }

  /** Candidates of the references under one result: the contributions of the
      references in list order; a reference that is not a dict has no `.get`
      and raises. */
  function VideoCandidates(vs: seq<Json>, username: Json): (r: Result<seq<WorkItem>>)
    ensures r.Ok? <==> forall i :: 0 <= i < |vs| ==> vs[i].JDict?
    ensures r.Raise? ==> r.error == AttributeError
    ensures r.Ok? ==> r.value == Somes(CandidatesAt(vs, username))
  {
    if |vs| == 0 then Ok([])
    else
      var v :- AsDict(vs[0]);
      var rest :- VideoCandidates(vs[1..], username);
      assert forall i :: 0 < i < |vs| ==> vs[i] == vs[1..][i - 1];
      assert CandidatesAt(vs, username)[1..] == CandidatesAt(vs[1..], username);
      match VideoCandidate(v, username)
      case Some(it) => Ok([it] + rest)
      case None => Ok(rest)
  }

  /** Every reference that yields a candidate contributes it, and every item
      comes from such a reference. */
  lemma VideoCandidatesMembers(vs: seq<Json>, username: Json)
    requires VideoCandidates(vs, username).Ok?
    ensures |VideoCandidates(vs, username).value| <= |vs|
    ensures forall i :: 0 <= i < |vs| && CandidateAt(vs[i], username).Some? ==>
              CandidateAt(vs[i], username).value in VideoCandidates(vs, username).value
    ensures forall it :: it in VideoCandidates(vs, username).value ==>
              exists i :: 0 <= i < |vs| && vs[i].JDict? && VideoCandidate(vs[i].fields, username) == Some(it)
  {
    var o := CandidatesAt(vs, username);
    SomesMembers(o);
    forall it | it in VideoCandidates(vs, username).value
      ensures exists i :: 0 <= i < |vs| && vs[i].JDict? && VideoCandidate(vs[i].fields, username) == Some(it)
    {
      var i :| 0 <= i < |o| && o[i] == Some(it);
      assert CandidateAt(vs[i], username) == Some(it);
    }
    forall i | 0 <= i < |vs| && CandidateAt(vs[i], username).Some?
      ensures CandidateAt(vs[i], username).value in VideoCandidates(vs, username).value
    {
      assert o[i] == CandidateAt(vs[i], username);
    }
  }

  /** The owner handle of a result: the profile's truthy `username`, else "unknown". */
  function ResultUsername(profile: Fields): (u: Json)
    ensures Truthy(u)
    ensures Truthy(Get(profile, "username")) ==> u == Get(profile, "username")
    ensures !Truthy(Get(profile, "username")) ==> u == JStr(UnknownUser)
  {
    Or(Get(profile, "username"), JStr(UnknownUser))
  }

  /** The profile a result group is read with: `r.get("profile", {}) or {}`. */
  function ProfileOf(rf: Fields): Json {
    Or(GetOr(rf, "profile", JDict([])), JDict([]))
  }

  /** The references a result group lists: `r.get("videos") or []`. */
  function VideosOf(rf: Fields): Json {
    Or(Get(rf, "videos"), JList([]))
  }

  /** Candidates of one result group: the candidates of its references, owned
      by the profile's username. A group that is not a dict, or whose truthy
      profile is not one, raises AttributeError; a truthy `videos` that cannot
      be iterated raises TypeError. */
  function ResultCandidates(r: Json): (c: Result<seq<WorkItem>>)
    ensures !r.JDict? ==> c == Raise(AttributeError)
    ensures r.JDict? && !ProfileOf(r.fields).JDict? ==> c == Raise(AttributeError)
    ensures r.JDict? && ProfileOf(r.fields).JDict? && Iterate(VideosOf(r.fields)).Raise? ==> c == Raise(TypeError)
    ensures r.JDict? && ProfileOf(r.fields).JDict? && Iterate(VideosOf(r.fields)).Ok? ==>
              c == VideoCandidates(Iterate(VideosOf(r.fields)).value, ResultUsername(ProfileOf(r.fields).fields))
    ensures c.Ok? ==> forall it :: it in c.value ==> it.videoId != "" && it.url != ""
    ensures c.Ok? && !Truthy(GetOr(r.fields, "profile", JDict([]))) ==>
              forall it :: it in c.value ==> it.username == UnknownUser
  {
    var rf :- AsDict(r);
    var pf :- AsDict(ProfileOf(rf));
    var vs :- Iterate(VideosOf(rf));
    var c := VideoCandidates(vs, ResultUsername(pf));
    if c.Ok? then VideoCandidatesMembers(vs, ResultUsername(pf)); c else c
  }

  function ResultsAt(rs: seq<Json>): seq<Result<seq<WorkItem>>> {
    seq(|rs|, i requires 0 <= i < |rs| => ResultCandidates(rs[i]))
  }

  /** Candidates of all result groups: each group's list in document order,
      concatenated; the first group that raises ends the run with its error. */
  function AllCandidates(rs: seq<Json>): (c: Result<seq<WorkItem>>)
    ensures c == FlatCollect(ResultsAt(rs))
    ensures c.Ok? ==> forall it :: it in c.value ==> it.videoId != "" && it.url != ""
  {
    if |rs| == 0 then Ok([])
    else
      assert ResultsAt(rs)[1..] == ResultsAt(rs[1..]);
      FlatCollectCons(ResultsAt(rs));
      var first :- ResultCandidates(rs[0]);
      var rest :- AllCandidates(rs[1..]);
      Ok(first + rest)
  }

  /** The pre-deduplication list for a seed-run document: the candidates of
      its `results` (default empty). A seed that is not a dict raises
      AttributeError, `results` that cannot be iterated raise TypeError. */
  function Candidates(seed: Json): (r: Result<seq<WorkItem>>)
    ensures !seed.JDict? ==> r == Raise(AttributeError)
    ensures seed.JDict? && Iterate(GetOr(seed.fields, "results", JList([]))).Raise? ==> r == Raise(TypeError)
    ensures seed.JDict? && Iterate(GetOr(seed.fields, "results", JList([]))).Ok? ==>
              r == FlatCollect(ResultsAt(Iterate(GetOr(seed.fields, "results", JList([]))).value))
  {
    var sf :- AsDict(seed);
    var results :- Iterate(GetOr(sf, "results", JList([])));
    AllCandidates(results)
  }

  // ---------------------------------------------------------------------
  // De-duplication by id
  // ---------------------------------------------------------------------

  function Ids(items: seq<WorkItem>): set<string> {
    set i | 0 <= i < |items| :: items[i].videoId
  }

  /** Item `i` is the first with its id. */
  predicate IsFirst(items: seq<WorkItem>, i: nat)
    requires i < |items|
  {
    forall j :: 0 <= j < i ==> items[j].videoId != items[i].videoId
  }

  predicate DistinctIds(items: seq<WorkItem>) {
    forall i, j :: 0 <= i < j < |items| ==> items[i].videoId != items[j].videoId
  }

  /** Reference definition: the items that are first with their id, in order. */
  function FirstOccurrences(items: seq<WorkItem>): seq<WorkItem> {
    if |items| == 0 then []
    else
      FirstOccurrences(items[..|items| - 1])
        + (if IsFirst(items, |items| - 1) then [items[|items| - 1]] else [])
  }

  /** The source's loop: a `seen` set and an output list, item by item. */
  function DedupLoop(items: seq<WorkItem>, i: nat, seen: set<string>, acc: seq<WorkItem>): seq<WorkItem>
    requires i <= |items|
    decreases |items| - i
  {
    if i == |items| then acc
    else if items[i].videoId in seen then DedupLoop(items, i + 1, seen, acc)
    else DedupLoop(items, i + 1, seen + {items[i].videoId}, acc + [items[i]])
  }

  lemma {:induction false} DedupLoopIsFirstOccurrences(items: seq<WorkItem>, i: nat, seen: set<string>, acc: seq<WorkItem>)
    requires i <= |items|
    requires seen == Ids(items[..i]) && acc == FirstOccurrences(items[..i])
    ensures DedupLoop(items, i, seen, acc) == FirstOccurrences(items)
    decreases |items| - i
  {
    if i == |items| {
      assert items[..i] == items;
    } else {
      var p := items[..i + 1];
      assert p[..|p| - 1] == items[..i];
      assert forall j :: 0 <= j < i ==> p[j] == items[..i][j];
      assert IsFirst(p, i) <==> items[i].videoId !in seen by {
        if items[i].videoId in seen {
          var j :| 0 <= j < i && items[..i][j].videoId == items[i].videoId;
          assert p[j].videoId == p[i].videoId;
        }
      }
      assert Ids(p) == seen + {items[i].videoId};
      if items[i].videoId in seen {
        assert FirstOccurrences(p) == acc;
        assert Ids(p) == seen;
      } else {
        assert FirstOccurrences(p) == acc + [items[i]];
      }
      DedupLoopIsFirstOccurrences(items, i + 1, Ids(p), FirstOccurrences(p));
    }
  }

  /** Removing the last item keeps the first-ness of the others. */
  lemma IsFirstOfInit(items: seq<WorkItem>)
    requires |items| > 0
    ensures forall i :: 0 <= i < |items| - 1 ==> (IsFirst(items[..|items| - 1], i) <==> IsFirst(items, i))
    ensures Ids(items) == Ids(items[..|items| - 1]) + {items[|items| - 1].videoId}
  {
    var init := items[..|items| - 1];
    assert forall i :: 0 <= i < |items| - 1 ==> init[i] == items[i];
  }

  lemma IdsAppend(items: seq<WorkItem>, x: WorkItem)
    ensures Ids(items + [x]) == Ids(items) + {x.videoId}
  {
    var q := items + [x];
    assert forall j :: 0 <= j < |items| ==> q[j] == items[j];
    assert q[|items|] == x;
  }

  lemma {:induction false} FirstOccurrencesIds(items: seq<WorkItem>)
    ensures Ids(FirstOccurrences(items)) == Ids(items)
  {
    if |items| > 0 {
      var n := |items| - 1;
      var init := items[..n];
      FirstOccurrencesIds(init);
      IsFirstOfInit(items);
      var fo := FirstOccurrences(init);
      if IsFirst(items, n) {
        IdsAppend(fo, items[n]);
      } else {
        var j :| 0 <= j < n && items[j].videoId == items[n].videoId;
        assert init[j].videoId in Ids(init);
        assert fo + [] == fo;
      }
    }
  }

  lemma {:induction false} FirstOccurrencesDistinct(items: seq<WorkItem>)
    ensures DistinctIds(FirstOccurrences(items))
  {
    if |items| > 0 {
      var n := |items| - 1;
      var init := items[..n];
      FirstOccurrencesDistinct(init);
      FirstOccurrencesIds(init);
      IsFirstOfInit(items);
      var fo := FirstOccurrences(init);
      if IsFirst(items, n) {
        assert items[n].videoId !in Ids(init);
        var q := fo + [items[n]];
        forall i, j | 0 <= i < j < |q|
          ensures q[i].videoId != q[j].videoId
        {
          if j == |fo| {
            assert q[i].videoId in Ids(fo);
          }
        }
      } else {
        assert fo + [] == fo;
      }
    }
  }

  /** Everything kept is a first occurrence of the input. */
  lemma {:induction false} FirstOccurrencesSound(items: seq<WorkItem>)
    ensures forall x :: x in FirstOccurrences(items) ==> exists i :: 0 <= i < |items| && IsFirst(items, i) && items[i] == x
  {
    if |items| > 0 {
      var n := |items| - 1;
      var init := items[..n];
      FirstOccurrencesSound(init);
      IsFirstOfInit(items);
      forall x | x in FirstOccurrences(items)
        ensures exists i :: 0 <= i < |items| && IsFirst(items, i) && items[i] == x
      {
        if x in FirstOccurrences(init) {
          var i :| 0 <= i < n && IsFirst(init, i) && init[i] == x;
          assert IsFirst(items, i) && items[i] == x;
        } else {
          assert IsFirst(items, n) && items[n] == x;
        }
      }
    }
  }

  /** Every first occurrence of the input is kept. */
  lemma {:induction false} FirstOccurrencesComplete(items: seq<WorkItem>)
    ensures forall i :: 0 <= i < |items| && IsFirst(items, i) ==> items[i] in FirstOccurrences(items)
  {
    if |items| > 0 {
      var n := |items| - 1;
      var init := items[..n];
      FirstOccurrencesComplete(init);
      IsFirstOfInit(items);
      forall i | 0 <= i < |items| && IsFirst(items, i)
        ensures items[i] in FirstOccurrences(items)
      {
        if i < n {
          assert init[i] == items[i];
          assert init[i] in FirstOccurrences(init);
        }
      }
    }
  }

  /** A list whose ids are already distinct is its own first-occurrence list. */
  lemma {:induction false} FirstOccurrencesOfDistinct(items: seq<WorkItem>)
    requires DistinctIds(items)
    ensures FirstOccurrences(items) == items
  {
    if |items| > 0 {
      var n := |items| - 1;
      assert DistinctIds(items[..n]);
      FirstOccurrencesOfDistinct(items[..n]);
      assert IsFirst(items, n);
      assert items[..n] + [items[n]] == items;
    }
  }

  /** De-duplication by id, keeping the first occurrence of each id in encounter order. */
  function Dedup(items: seq<WorkItem>): (r: seq<WorkItem>)
    ensures r == FirstOccurrences(items)
    ensures DistinctIds(r)
    ensures Ids(r) == Ids(items)
    ensures forall x :: x in r ==> exists i :: 0 <= i < |items| && IsFirst(items, i) && items[i] == x
    ensures forall i :: 0 <= i < |items| && IsFirst(items, i) ==> items[i] in r
  {
    assert items[..0] == [];
    DedupLoopIsFirstOccurrences(items, 0, {}, []);
    FirstOccurrencesIds(items);
    FirstOccurrencesDistinct(items);
    FirstOccurrencesSound(items);
    FirstOccurrencesComplete(items);
    DedupLoop(items, 0, {}, [])
  }

  /** De-duplicating twice is de-duplicating once. */
  lemma DedupIdempotent(items: seq<WorkItem>)
    ensures Dedup(Dedup(items)) == Dedup(items)
  {
    FirstOccurrencesOfDistinct(Dedup(items));
  }

  /** The work list of a seed-user run. */
  function ExtractWorkItems(seed: Json): (r: Result<seq<WorkItem>>)
    ensures r.Ok? ==> DistinctIds(r.value)
    ensures r.Ok? ==> forall it :: it in r.value ==> it.videoId != "" && it.url != ""
    ensures r.Ok? <==> Candidates(seed).Ok?
    ensures r.Ok? ==> r.value == FirstOccurrences(Candidates(seed).value)
  {
    var all :- Candidates(seed);
    Ok(Dedup(all))
  }
}
