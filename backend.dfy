/** `api.py`: the web backend's own logic around the SDK — the saved-profiles store,
    the enrichment of the first recommendation feed with public profiles, the shape
    normalisation of the "me" response, and the like dispatch. */
module Backend {
  import opened Wrappers
  import opened Seqs
  import opened Dicts
  import opened Json
  import opened Client
  import opened SdkApi
  import Tools

  // ----- The saved-profiles store ---------------------------------------------------------

  /** `saved_profiles.json`: absent, present but not decodable, or holding a value. */
  datatype StoreFile = Missing | Unreadable | Stored(content: Json)

  /** What `save_profiles` loads: the stored value, and `[]` when the file is missing or
      `json.load` raises. */
  function Existing(file: StoreFile): Json
  {
    if file.Stored? then file.content else Arr([])
  }

  /** `p.get("subjectId")` used as a set member: `p` must be a dict and the id hashable. */
  function SubjectKey(p: Json): Option<Json>
  {
    match GetOr(p, "subjectId", Null)
    case None => None
    case Some(k) => if Hashable(k) then Some(k) else None
  }

  /** `{p.get("subjectId") for p in existing}`, once every id is known. */
  function IdSet(ks: seq<Json>): set<Json>
  {
    set k | k in ks
  }

  /** The comprehension that keeps the profiles (with ids `ks`) whose id is not in `ids`. */
  function Fresh(ps: seq<Json>, ks: seq<Json>, ids: set<Json>): seq<Json>
    requires |ps| == |ks|
    decreases |ps|
  {
    if ps == [] then []
    else (if ks[0] in ids then [] else [ps[0]]) + Fresh(ps[1..], ks[1..], ids)
  }

  /** The counts `save_profiles` answers with. */
  datatype SaveReport = SaveReport(saved: nat, total: nat, skipped: int)

  /** The list written back to the store, and the report. */
  datatype Saved = Saved(combined: seq<Json>, report: SaveReport)

  /** `save_profiles` on the store's contents and the posted profiles; `None` when it raises
      (and so writes nothing). A stored value that is not a list always raises: iterating it
      fails, or `existing + new_profiles` adds a list to something else. */
  function SaveProfiles(file: StoreFile, profiles: Json): Option<Saved>
  {
    SaveInto(Existing(file), profiles)
  }

  /** `save_profiles` once the existing value is loaded. */
  function SaveInto(existing: Json, profiles: Json): Option<Saved>
  {
    if !existing.Arr? then None
    else
      match MapOpt(existing.items, SubjectKey)
      case None => None
      case Some(eks) =>
        match Iter(profiles)
        case None => None
        case Some(ps) =>
          match MapOpt(ps, SubjectKey)
          case None => None
          case Some(pks) =>
            var kept := Fresh(ps, pks, IdSet(eks));
            var combined := existing.items + kept;
            Some(Saved(combined, SaveReport(|kept|, |combined|, |ps| - |kept|)))
  }

  /** A profile is kept exactly when its id is not among `ids`; the kept ones are no more
      than the input. */
  lemma {:induction false} FreshMembers(ps: seq<Json>, ks: seq<Json>, ids: set<Json>)
    requires |ps| == |ks|
    ensures |Fresh(ps, ks, ids)| <= |ps|
    ensures forall p :: p in Fresh(ps, ks, ids) <==> exists i :: 0 <= i < |ps| && ps[i] == p && ks[i] !in ids
    decreases |ps|
  {
    if ps != [] {
      FreshMembers(ps[1..], ks[1..], ids);
      forall p ensures p in Fresh(ps, ks, ids) <==> exists i :: 0 <= i < |ps| && ps[i] == p && ks[i] !in ids {
        if p in Fresh(ps[1..], ks[1..], ids) {
          var i :| 0 <= i < |ps[1..]| && ps[1..][i] == p && ks[1..][i] !in ids;
          assert ps[i + 1] == p && ks[i + 1] !in ids;
        }
        if exists i :: 0 <= i < |ps| && ps[i] == p && ks[i] !in ids {
          var i :| 0 <= i < |ps| && ps[i] == p && ks[i] !in ids;
          if i > 0 {
            assert ps[1..][i - 1] == p && ks[1..][i - 1] !in ids;
          }
        }
      }
    }
  }

  /** The kept profiles keep the input order: filtering a concatenation concatenates the
      filtered parts. */
  lemma {:induction false} FreshAppend(ps: seq<Json>, ks: seq<Json>, qs: seq<Json>, ls: seq<Json>, ids: set<Json>)
    requires |ps| == |ks| && |qs| == |ls|
    ensures Fresh(ps + qs, ks + ls, ids) == Fresh(ps, ks, ids) + Fresh(qs, ls, ids)
    decreases |ps|
  {
    if ps != [] {
      assert (ps + qs)[1..] == ps[1..] + qs && (ks + ls)[1..] == ks[1..] + ls;
      FreshAppend(ps[1..], ks[1..], qs, ls, ids);
    } else {
      assert ps + qs == qs && ks + ls == ls;
    }
  }

  /** Nothing is kept when every id is already known. */
  lemma {:induction false} FreshNone(ps: seq<Json>, ks: seq<Json>, ids: set<Json>)
    requires |ps| == |ks| && forall i :: 0 <= i < |ks| ==> ks[i] in ids
    ensures Fresh(ps, ks, ids) == []
    decreases |ps|
  {
    if ps != [] {
      assert ks[0] in ids;
      FreshNone(ps[1..], ks[1..], ids);
    }
  }

  /** `save_profiles` raises exactly when the stored value is not a list, a stored or posted
      profile is not a dict with a hashable `subjectId`, or the posted value is not iterable. */
  lemma SaveProfilesFails(file: StoreFile, profiles: Json)
    ensures SaveProfiles(file, profiles).None? <==>
      || !Existing(file).Arr?
      || (exists i :: 0 <= i < |Existing(file).items| && SubjectKey(Existing(file).items[i]).None?)
      || Iter(profiles).None?
      || (exists i :: 0 <= i < |Iter(profiles).value| && SubjectKey(Iter(profiles).value[i]).None?)
  {
  }

  /** A successful save keeps the stored list as a prefix and appends exactly the posted
      profiles whose id was not stored, in the order posted (`Fresh`); `saved + skipped`
      is the number posted and `total` the stored number plus `saved`. */
  lemma SaveProfilesShape(file: StoreFile, profiles: Json)
    requires SaveProfiles(file, profiles).Some?
    ensures var s := SaveProfiles(file, profiles).value;
      var existing := Existing(file).items;
      var ps := Iter(profiles).value;
      var ids := IdSet(MapOpt(existing, SubjectKey).value);
      && |existing| <= |s.combined| && s.combined[..|existing|] == existing
      && s.report.saved == |s.combined| - |existing|
      && s.report.total == |existing| + s.report.saved
      && s.report.saved + s.report.skipped == |ps|
      && s.report.skipped >= 0
      && (forall p :: p in s.combined[|existing|..] <==>
            exists i :: 0 <= i < |ps| && ps[i] == p && SubjectKey(p).value !in ids)
      && MapOpt(ps, SubjectKey).Some?
      && s.combined[|existing|..] == Fresh(ps, MapOpt(ps, SubjectKey).value, ids)
  {
    var existing := Existing(file).items;
    var ps := Iter(profiles).value;
    var pks := MapOpt(ps, SubjectKey).value;
    var ids := IdSet(MapOpt(existing, SubjectKey).value);
    var kept := Fresh(ps, pks, ids);
    FreshMembers(ps, pks, ids);
    assert (existing + kept)[..|existing|] == existing;
    assert (existing + kept)[|existing|..] == kept;
  }

  /** The ids a saved list holds: the stored ones and those of the kept profiles. */
  lemma SavedIds(file: StoreFile, profiles: Json)
    requires SaveProfiles(file, profiles).Some?
    ensures var s := SaveProfiles(file, profiles).value;
      var ps := Iter(profiles).value;
      && MapOpt(s.combined, SubjectKey).Some?
      && forall i :: 0 <= i < |ps| ==> SubjectKey(ps[i]).value in IdSet(MapOpt(s.combined, SubjectKey).value)
  {
    var existing := Existing(file).items;
    var ps := Iter(profiles).value;
    var pks := MapOpt(ps, SubjectKey).value;
    AppendedIds(existing, ps, pks);
  }

  /** Appending the kept profiles to a list of keyed profiles gives a list of keyed profiles
      that holds every posted id. */
  lemma AppendedIds(existing: seq<Json>, ps: seq<Json>, pks: seq<Json>)
    requires MapOpt(existing, SubjectKey).Some?
    requires |ps| == |pks| && forall i :: 0 <= i < |ps| ==> SubjectKey(ps[i]) == Some(pks[i])
    ensures var c := existing + Fresh(ps, pks, IdSet(MapOpt(existing, SubjectKey).value));
      && MapOpt(c, SubjectKey).Some?
      && forall i :: 0 <= i < |ps| ==> pks[i] in IdSet(MapOpt(c, SubjectKey).value)
  {
    var eks := MapOpt(existing, SubjectKey).value;
    var ids := IdSet(eks);
    var kept := Fresh(ps, pks, ids);
    var c := existing + kept;
    FreshMembers(ps, pks, ids);
    forall i | 0 <= i < |c| ensures SubjectKey(c[i]).Some? {
      if i >= |existing| {
        assert c[i] == kept[i - |existing|];
        assert c[i] in kept;
      } else {
        assert c[i] == existing[i];
      }
    }
    var cks := MapOpt(c, SubjectKey).value;
    forall i | 0 <= i < |ps| ensures pks[i] in IdSet(cks) {
      if pks[i] in ids {
        var j :| 0 <= j < |eks| && eks[j] == pks[i];
        assert c[j] == existing[j];
        assert cks[j] == pks[i];
      } else {
        assert ps[i] in kept;
        var m :| 0 <= m < |kept| && kept[m] == ps[i];
        assert c[|existing| + m] == ps[i];
        assert cks[|existing| + m] == pks[i];
      }
    }
  }

  /** Posting the same profiles again saves none, skips them all and leaves the list as
      it was. */
  lemma SaveProfilesIdempotent(file: StoreFile, profiles: Json)
    requires SaveProfiles(file, profiles).Some?
    ensures var s := SaveProfiles(file, profiles).value;
      var again := SaveProfiles(Stored(Arr(s.combined)), profiles);
      && again.Some?
      && again.value.combined == s.combined
      && again.value.report == SaveReport(0, s.report.total, |Iter(profiles).value|)
  {
    var s := SaveProfiles(file, profiles).value;
    SavedIds(file, profiles);
    var ps := Iter(profiles).value;
    var pks := MapOpt(ps, SubjectKey).value;
    var ids := IdSet(MapOpt(s.combined, SubjectKey).value);
    forall i | 0 <= i < |pks| ensures pks[i] in ids {
      assert SubjectKey(ps[i]) == Some(pks[i]);
    }
    FreshNone(ps, pks, ids);
    assert s.combined + [] == s.combined;
  }

  /** A missing or unreadable store saves like an empty list. */
  lemma SaveFromNothing(profiles: Json)
    ensures SaveProfiles(Missing, profiles) == SaveProfiles(Stored(Arr([])), profiles)
    ensures SaveProfiles(Unreadable, profiles) == SaveProfiles(Stored(Arr([])), profiles)
  {
  }

  /** Repeats within one posting are not removed against each other: the same new
      profile posted twice is saved twice. */
  lemma SaveKeepsRepeats(p: Json)
    requires SubjectKey(p).Some?
    ensures SaveProfiles(Missing, Arr([p, p])) == Some(Saved([p, p], SaveReport(2, 2, 0)))
  {
    var k := SubjectKey(p).value;
    var none := MapOpt([], SubjectKey);
    assert none.Some? && none.value == [];
    var both := MapOpt([p, p], SubjectKey);
    assert both.Some?;
    assert both.value == [k, k];
    assert IdSet([]) == {};
    assert Fresh([p], [k], {}) == [p];
    assert Fresh([p, p], [k, k], {}) == [p, p] by {
      assert [p, p][1..] == [p] && [k, k][1..] == [k];
    }
    assert Existing(Missing) == Arr([]) && Iter(Arr([p, p])) == Some([p, p]);
    assert [] + [p, p] == [p, p];
  }

  /** What `get_saved_profiles` answers: the stored value and its length, or a failure. */
  datatype Listing = Listed(profiles: Json, count: nat) | ListFailed

  /** `get_saved_profiles`: a missing store lists nothing; a store that does not decode,
      or whose value has no length, fails. */
  function SavedListing(file: StoreFile): (r: Listing)
  {
    match file
    case Missing => Listed(Arr([]), 0)
    case Unreadable => ListFailed
    case Stored(j) =>
      match Len(j)
      case None => ListFailed
      case Some(n) => Listed(j, n)
  }

  /** After a save, listing shows the written list with `total` profiles; after clearing,
      listing shows none. */
  lemma ListingAfterSave(file: StoreFile, profiles: Json)
    requires SaveProfiles(file, profiles).Some?
    ensures var s := SaveProfiles(file, profiles).value;
      SavedListing(Stored(Arr(s.combined))) == Listed(Arr(s.combined), s.report.total)
    ensures SavedListing(Missing) == Listed(Arr([]), 0)
  {
  }

  /** The store file, which `save_profiles` rewrites and `clear_saved_profiles` removes. */
  class ProfileStore {
    var file: StoreFile

    constructor (file: StoreFile)
      ensures this.file == file
    {
      this.file := file;
    }

    /** `save_profiles`: writes the combined list and answers the counts, or raises and
        leaves the file alone. */
    method Save(profiles: Json) returns (report: Option<SaveReport>)
      modifies this
      ensures match SaveProfiles(old(file), profiles)
        case None => report.None? && file == old(file)
        case Some(s) => report == Some(s.report) && file == Stored(Arr(s.combined))
    {
      var s := SaveProfiles(file, profiles);
      if s.Some? {
        file := Stored(Arr(s.value.combined));
        report := Some(s.value.report);
      } else {
        report := None;
      }
    }

    /** `clear_saved_profiles`: removes the file when it exists. */
    method Clear()
      modifies this
      ensures file == Missing
    {
      if file != Missing {
        file := Missing;
      }
    }
  }

  // ----- Enriching the first feed ---------------------------------------------------------

  /** The page `get_recommendations` answers with: `count` and `subjects`. */
  datatype Page = Page(count: nat, subjects: Json)

  const EmptyPage := Page(0, Arr([]))

  /** `s["subjectId"]` for one subject. */
  function SubjectId(s: Json): Option<Json>
  {
    At(s, "subjectId")
  }

  /** One entry of the `users` comprehension: `u.get("identityId")`, or for the `users`
      shape `u.get("identityId") or u.get("id")`; `u` must be a dict and the key hashable. */
  function UserEntry(u: Json, orId: bool): Option<(Json, Json)>
  {
    match GetOr(u, "identityId", Null)
    case None => None
    case Some(a) =>
      var k := if orId && !Truthy(a) then Get(u.fields, "id").GetOr(Null) else a;
      if Hashable(k) then Some((k, u)) else None
  }

  /** The `users` dict built from what `get_public_users` answered: a list is keyed by
      `identityId`, a dict holding `users` by `identityId` or `id`, and anything else gives
      no users; `None` when building it raises. */
  function UsersIndex(data: Json): Option<Tools.Table>
  {
    match UserItems(data)
    case None => None
    case Some(us) =>
      match MapOpt(us, u => UserEntry(u, !data.Arr?))
      case None => None
      case Some(es) => Some(PutAll([], es))
  }

  /** The user objects the `users` dict is built from. */
  function UserItems(data: Json): Option<seq<Json>>
  {
    if data.Arr? then Some(data.items)
    else if data.Obj? && "users" in Keys(data.fields) then Iter(Get(data.fields, "users").value)
    else Some([])
  }

  /** `{**subj, "profile": profile}` with the user whose key is the subject's id, or `{}`. */
  function EnrichEntry(s: Json, users: Tools.Table): Json
    requires SubjectId(s).Some?
  {
    Obj(Put(s.fields, "profile", Get(users, SubjectId(s).value).GetOr(Obj([]))))
  }

  /** The `enriched` list: every subject, in order, with its profile. */
  function EnrichAll(ss: seq<Json>, users: Tools.Table): (r: seq<Json>)
    requires forall i :: 0 <= i < |ss| ==> SubjectId(ss[i]).Some?
  {
    seq(|ss|, i requires 0 <= i < |ss| => EnrichEntry(ss[i], users))
  }

  /** The part inside the inner `try`: fetch the subjects' public profiles and enrich, or
      fall back to the raw subjects when anything there raises. */
  function EnrichedPage(subjects: Json, ss: seq<Json>, ids: seq<Json>,
                        fetchUsers: seq<string> -> Tools.Fetched): Page
    requires |ids| == |ss| && forall i :: 0 <= i < |ss| ==> SubjectId(ss[i]) == Some(ids[i])
  {
    var fallback := Page(|ss|, subjects);
    match Tools.IdStrings(ids)
    case None => fallback
    case Some(strs) =>
      match fetchUsers(strs)
      case FetchFailed => fallback
      case Fetched(data) =>
        match UsersIndex(data)
        case None => fallback
        case Some(users) => Page(|ss|, Arr(EnrichAll(ss, users)))
  }

  /** `get_recommendations` of the backend, given the answer of the SDK's
      `get_recommendations` and the public-users endpoint; `None` when it answers with a
      server error. */
  function Recommendations(answer: Tools.Fetched, fetchUsers: seq<string> -> Tools.Fetched): Option<Page>
  {
    match answer
    case FetchFailed => None
    case Fetched(recs) => FeedsPage(recs, fetchUsers)
  }

  /** The page for the recommendations answered. */
  function FeedsPage(recs: Json, fetchUsers: seq<string> -> Tools.Fetched): Option<Page>
  {
    match GetOr(recs, "feeds", Arr([]))
    case None => None
    case Some(feeds) =>
      if !Truthy(feeds) then Some(EmptyPage)
      else
        match First(feeds)
        case None => None
        case Some(feed) => FeedPage(feed, fetchUsers)
  }

  /** The page for the first feed. */
  function FeedPage(feed: Json, fetchUsers: seq<string> -> Tools.Fetched): Option<Page>
  {
    match GetOr(feed, "subjects", Arr([]))
    case None => None
    case Some(subjects) =>
      if !Truthy(subjects) then Some(EmptyPage)
      else
        match Iter(subjects)
        case None => None
        case Some(ss) =>
          match MapOpt(ss, SubjectId)
          case None => None
          case Some(ids) => Some(EnrichedPage(subjects, ss, ids, fetchUsers))
  }

  /** Without feeds, or when the first feed has no subjects, the page is empty. */
  lemma RecommendationsEmpty(recs: Json, fetchUsers: seq<string> -> Tools.Fetched)
    requires recs.Obj?
    ensures var feeds := GetOr(recs, "feeds", Arr([])).value;
      && (!Truthy(feeds) ==> Recommendations(Tools.Fetched(recs), fetchUsers) == Some(EmptyPage))
      && (feeds.Arr? && feeds.items != [] && feeds.items[0].Obj?
          && !Truthy(GetOr(feeds.items[0], "subjects", Arr([])).value)
          ==> Recommendations(Tools.Fetched(recs), fetchUsers) == Some(EmptyPage))
  {
  }

  /** A failing SDK call, an answer that is not a dict, or a first feed that is not one,
      is answered with the server error. */
  lemma RecommendationsFails(answer: Tools.Fetched, fetchUsers: seq<string> -> Tools.Fetched)
    ensures answer.FetchFailed? ==> Recommendations(answer, fetchUsers).None?
    ensures answer.Fetched? && !answer.body.Obj? ==> Recommendations(answer, fetchUsers).None?
    ensures answer.Fetched? && answer.body.Obj? ==>
      var feeds := GetOr(answer.body, "feeds", Arr([])).value;
      feeds.Arr? && feeds.items != [] && !feeds.items[0].Obj? ==> Recommendations(answer, fetchUsers).None?
  {
  }

  /** Only the first feed is read: any feeds after it make no difference. */
  lemma RecommendationsFirstFeed(recs: Json, fetchUsers: seq<string> -> Tools.Fetched)
    requires recs.Obj? && GetOr(recs, "feeds", Arr([])).value.Arr?
    requires GetOr(recs, "feeds", Arr([])).value.items != []
    ensures var feeds := GetOr(recs, "feeds", Arr([])).value.items;
      && Recommendations(Tools.Fetched(recs), fetchUsers) == FeedPage(feeds[0], fetchUsers)
      && Recommendations(Tools.Fetched(recs), fetchUsers) ==
           Recommendations(Tools.Fetched(Obj([("feeds", Arr([feeds[0]]))])), fetchUsers)
  {
    var f := Obj([("feeds", Arr([GetOr(recs, "feeds", Arr([])).value.items[0]]))]);
    assert Get(f.fields, "feeds") == Some(Arr([GetOr(recs, "feeds", Arr([])).value.items[0]]));
  }

  /** The page counts every subject of the first feed, whether enriched or not; when the
      profiles could be fetched and indexed it lists the subjects in order, each with all of
      its own fields and a `profile` that is the user keyed by its id, or `{}`; otherwise it
      is the raw subjects. */
  lemma EnrichedPageFacts(subjects: Json, ss: seq<Json>, ids: seq<Json>,
                          fetchUsers: seq<string> -> Tools.Fetched)
    requires |ids| == |ss| && forall i :: 0 <= i < |ss| ==> SubjectId(ss[i]) == Some(ids[i])
    ensures var page := EnrichedPage(subjects, ss, ids, fetchUsers);
      page.count == |ss|
    ensures var page := EnrichedPage(subjects, ss, ids, fetchUsers);
      var strs := Tools.IdStrings(ids);
      if strs.Some? && fetchUsers(strs.value).Fetched? && UsersIndex(fetchUsers(strs.value).body).Some? then
        var users := UsersIndex(fetchUsers(strs.value).body).value;
        && page.subjects.Arr? && |page.subjects.items| == |ss|
        && forall i :: 0 <= i < |ss| ==>
             var e := page.subjects.items[i];
             && e.Obj?
             && Get(e.fields, "profile") == Some(Get(users, ids[i]).GetOr(Obj([])))
             && forall k :: k != "profile" ==> Get(e.fields, k) == Get(ss[i].fields, k)
      else page == Page(|ss|, subjects)
  {
  }

  /** A user whose key no later user repeats is the one the index gives for that key. */
  lemma UsersIndexLast(data: Json, i: nat)
    requires UsersIndex(data).Some? && i < |UserItems(data).value|
    requires var us := UserItems(data).value;
      forall j :: i < j < |us| ==> UserEntry(us[j], !data.Arr?).value.0 != UserEntry(us[i], !data.Arr?).value.0
    ensures var us := UserItems(data).value;
      && UserEntry(us[i], !data.Arr?).Some?
      && Get(UsersIndex(data).value, UserEntry(us[i], !data.Arr?).value.0) == Some(us[i])
  {
    var us := UserItems(data).value;
    var f := u => UserEntry(u, !data.Arr?);
    var es := MapOpt(us, f).value;
    assert f(us[i]) == Some(es[i]);
    forall j | i < j < |es| ensures es[j].0 != es[i].0 {
      assert f(us[j]) == Some(es[j]);
    }
    PutAllLast([], es, i);
  }

  /** A key that no user has is absent from the index, so its subject gets `{}`. */
  lemma UsersIndexAbsent(data: Json, k: Json)
    requires UsersIndex(data).Some?
    requires var us := UserItems(data).value;
      forall j :: 0 <= j < |us| ==> UserEntry(us[j], !data.Arr?).value.0 != k
    ensures Get(UsersIndex(data).value, k).None?
  {
    var us := UserItems(data).value;
    var f := u => UserEntry(u, !data.Arr?);
    var es := MapOpt(us, f).value;
    forall j | 0 <= j < |es| ensures es[j].0 != k {
      assert f(us[j]) == Some(es[j]);
    }
    PutAllUntouched([], es, k);
  }

  /** The loop that builds `enriched`. */
  method Enrich(ss: seq<Json>, users: Tools.Table) returns (enriched: seq<Json>)
    requires forall i :: 0 <= i < |ss| ==> SubjectId(ss[i]).Some?
    ensures enriched == EnrichAll(ss, users)
  {
    enriched := [];
    var i := 0;
    while i < |ss|
      invariant i <= |ss| && enriched == EnrichAll(ss[..i], users)
    {
      assert ss[..i + 1] == ss[..i] + [ss[i]];
      EnrichAllSnoc(ss[..i], ss[i], users);
      enriched := enriched + [EnrichEntry(ss[i], users)];
      i := i + 1;
    }
    assert ss[..i] == ss;
  }

  lemma EnrichAllSnoc(ss: seq<Json>, s: Json, users: Tools.Table)
    requires forall i :: 0 <= i < |ss| ==> SubjectId(ss[i]).Some?
    requires SubjectId(s).Some?
    ensures EnrichAll(ss + [s], users) == EnrichAll(ss, users) + [EnrichEntry(s, users)]
  {
    var a, b := EnrichAll(ss + [s], users), EnrichAll(ss, users) + [EnrichEntry(s, users)];
    assert |a| == |b|;
    forall i | 0 <= i < |a| ensures a[i] == b[i] {
      if i < |ss| {
        assert (ss + [s])[i] == ss[i];
        assert a[i] == EnrichEntry(ss[i], users) == EnrichAll(ss, users)[i] == b[i];
      } else {
        assert (ss + [s])[i] == s;
        assert a[i] == EnrichEntry(s, users) == b[|ss|];
      }
    }
  }

  /** The backend's `get_recommendations`, with the `enriched` loop. */
  method GetRecommendations(answer: Tools.Fetched, fetchUsers: seq<string> -> Tools.Fetched)
    returns (r: Option<Page>)
    ensures r == Recommendations(answer, fetchUsers)
  {
    if answer.FetchFailed? { return None; }
    var feeds := GetOr(answer.body, "feeds", Arr([]));
    if feeds.None? { return None; }
    if !Truthy(feeds.value) { return Some(EmptyPage); }
    var feed := First(feeds.value);
    if feed.None? { return None; }
    var subjects := GetOr(feed.value, "subjects", Arr([]));
    if subjects.None? { return None; }
    if !Truthy(subjects.value) { return Some(EmptyPage); }
    var ss := Iter(subjects.value);
    if ss.None? { return None; }
    var ids := MapOpt(ss.value, SubjectId);
    if ids.None? { return None; }
    assert FeedPage(feed.value, fetchUsers) == Some(EnrichedPage(subjects.value, ss.value, ids.value, fetchUsers));
    var fallback := Page(|ss.value|, subjects.value);
    var strs := Tools.IdStrings(ids.value);
    if strs.None? { return Some(fallback); }
    var fetched := fetchUsers(strs.value);
    if fetched.FetchFailed? { return Some(fallback); }
    var users := UsersIndex(fetched.body);
    if users.None? { return Some(fallback); }
    var enriched := Enrich(ss.value, users.value);
    r := Some(Page(|enriched|, Arr(enriched)));
  }

  // ----- The "me" profile -----------------------------------------------------------------

  /** `get_my_profile`'s normalisation of what `get_public_users([user_id])` answered;
      `None` when `users[0]` raises. */
  function MyProfile(data: Json): Option<Json>
  {
    if data.Arr? && |data.items| > 0 then Some(data.items[0])
    else if data.Obj? then
      var users := GetOr(data, "users", GetOr(data, "profiles", Arr([])).value).value;
      if Truthy(users) then First(users) else Some(data)
    else Some(Obj([]))
  }

  /** A non-empty list gives its first element; a dict gives the first of `users`, or of
      `profiles` when it has no `users`, or itself when that list is empty (even with a
      non-empty `profiles` beside an empty `users`); anything else gives `{}`. */
  lemma MyProfileCases(data: Json)
    ensures data.Arr? && data.items != [] ==> MyProfile(data) == Some(data.items[0])
    ensures data.Obj? && Get(data.fields, "users").Some? && Get(data.fields, "users").value.Arr? ==>
      var us := Get(data.fields, "users").value.items;
      MyProfile(data) == Some(if us != [] then us[0] else data)
    ensures data.Obj? && Get(data.fields, "users").None? && Get(data.fields, "profiles").Some?
            && Get(data.fields, "profiles").value.Arr? ==>
      var ps := Get(data.fields, "profiles").value.items;
      MyProfile(data) == Some(if ps != [] then ps[0] else data)
    ensures data.Obj? && Get(data.fields, "users").None? && Get(data.fields, "profiles").None? ==>
      MyProfile(data) == Some(data)
    ensures !data.Obj? && !(data.Arr? && data.items != []) ==> MyProfile(data) == Some(Obj([]))
  {
  }

  /** The normalisation raises only on a dict whose chosen list is a truthy value that
      cannot be indexed by `0`. */
  lemma MyProfileFails(data: Json)
    ensures MyProfile(data).None? <==>
      data.Obj? &&
      var users := if Get(data.fields, "users").Some? then Get(data.fields, "users").value
                   else Get(data.fields, "profiles").GetOr(Arr([]));
      Truthy(users) && !users.Arr? && !users.Str?
  {
  }

  // ----- The like dispatch ----------------------------------------------------------------

  /** The posted `LikeRequest`. */
  datatype LikeRequest = LikeRequest(subjectId: string, ratingToken: string, comment: Option<string>,
                                     contentId: Option<string>, questionId: Option<string>)

  /** The SDK call the backend's `like_profile` makes: a prompt like when `question_id` is
      truthy, else a photo like when `content_id` is, the comment (or `""`) going into the
      liked item; `None` when it has neither. */
  function LikeRequestArgs(req: LikeRequest): Option<LikeArgs>
  {
    var base := PlainLike(req.subjectId, req.ratingToken);
    if Given(req.questionId) then
      Some(base.(prompt := Obj([("questionId", Str(req.questionId.value)), ("response", Str(OrEmpty(req.comment)))])))
    else if Given(req.contentId) then
      Some(base.(photo := Obj([("contentId", Str(req.contentId.value)), ("comment", Str(OrEmpty(req.comment)))])))
    else None
  }

  /** A question id wins over a content id; the like carries no top-level comment, and the
      comment becomes the prompt's `response` or the photo's `comment`; with neither id
      there is no call. */
  lemma LikeRequestDispatch(req: LikeRequest)
    ensures LikeRequestArgs(req).None? <==> !Given(req.questionId) && !Given(req.contentId)
    ensures Given(req.questionId) ==>
      var a := LikeRequestArgs(req).value;
      && a.photo == Null && a.comment.None?
      && At(a.prompt, "questionId") == Some(Str(req.questionId.value))
      && At(a.prompt, "response") == Some(Str(OrEmpty(req.comment)))
    ensures !Given(req.questionId) && Given(req.contentId) ==>
      var a := LikeRequestArgs(req).value;
      && a.prompt == Null && a.comment.None?
      && At(a.photo, "contentId") == Some(Str(req.contentId.value))
      && At(a.photo, "comment") == Some(Str(OrEmpty(req.comment)))
    ensures LikeRequestArgs(req).Some? ==>
      var a := LikeRequestArgs(req).value;
      a.subjectId == req.subjectId && a.ratingToken == req.ratingToken
  {
    var comment := Str(OrEmpty(req.comment));
    if Given(req.questionId) {
      var pr := [("questionId", Str(req.questionId.value)), ("response", comment)];
      assert |pr[0].0| == 10 && |pr[1].0| == 8;
      GetFirstEntry(pr, 0);
      GetFirstEntry(pr, 1);
    } else if Given(req.contentId) {
      var ph := [("contentId", Str(req.contentId.value)), ("comment", comment)];
      assert |ph[0].0| == 9 && |ph[1].0| == 7;
      GetFirstEntry(ph, 0);
      GetFirstEntry(ph, 1);
    }
  }

  /** What the backend answers: the SDK's response body, or an HTTP error status. */
  datatype Reply = Answered(body: Json) | HttpError(status: int)

  /** The backend's `like_profile`: the missing-id 400 is raised inside the handler's own
      `try`, so it reaches the client as a 500, like every failure of the SDK call. */
  method Like(c: HingeClient, req: LikeRequest, ratingId: string, created: string,
              send: Sent -> Transport, traceback: string)
    returns (reply: Reply)
    requires c.Valid()
    ensures LikeRequestArgs(req).None? ==> reply == HttpError(500)
    ensures LikeRequestArgs(req).Some? ==>
      var sent := Sent("POST", RateUrl, MergeHeaders(JsonContentType, c.defaultHeaders), [],
                       Obj(LikePayload(LikeRequestArgs(req).value, c.sessionId, ratingId, created)), Null);
      match Classify(sent, send(sent), traceback)
      case Returned(r) => reply == Answered(r.body)
      case Raised(_) => reply == HttpError(500)
  {
    var args := LikeRequestArgs(req);
    if args.None? {
      return HttpError(500);
    }
    var response, error := LikeProfile(c, args.value, ratingId, created, send, traceback);
    if response.Some? {
      reply := Answered(response.value.body);
    } else {
      reply := HttpError(500);
    }
  }
}
