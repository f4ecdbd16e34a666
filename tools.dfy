/** `HingeSDK/hingesdk/tools.py`: reading the prompt mapping, extracting subject ids and
    rating tokens from a listing, projecting a public profile into the saved record,
    and folding a batch of profiles into the saved data. */
module Tools {
  import opened Wrappers
  import opened Seqs
  import opened Dicts
  import opened Json

  datatype ProfileSource = Recommendations | Standouts {
    /** `source.value` */
    function Value(): string
    {
      match this
      case Recommendations => "recommendations"
      case Standouts => "standouts"
    }
  }

  /** What one SDK call gave back: the decoded body, or an `HingeAPIError`. */
  datatype Fetched = Fetched(body: Json) | FetchFailed

  /** Why a run stopped: a failed request, the missing prompt mapping file, or any other
      exception raised while reading the data (a missing key, a value of the wrong type). */
  datatype Failure = ApiFailure | MappingMissing | Malformed

  /** Dicts keyed by Python values: the prompt mapping, the rating tokens and the saved data. */
  type Table = Dict<Json, Json>

  /** A sequence of `(subjectId, ratingToken)` pairs in listing order. */
  type Entries = seq<(Json, Json)>

  // ----- The prompt mapping -------------------------------------------------------------

  /** One mapping entry `prompt["id"]: prompt["prompt"]`; the id must be hashable. */
  function QuestionEntry(prompt: Json): Option<(Json, Json)>
  {
    match At(prompt, "id")
    case None => None
    case Some(id) =>
      match At(prompt, "prompt")
      case None => None
      case Some(text) => if Hashable(id) then Some((id, text)) else None
  }

  /** `question_data.get("text", {}).get("prompts", [])`, iterated. */
  function PromptList(questionData: Json): Option<seq<Json>>
  {
    match GetOr(questionData, "text", Obj([]))
    case None => None
    case Some(text) =>
      match GetOr(text, "prompts", Arr([]))
      case None => None
      case Some(prompts) => Iter(prompts)
  }

  /** The dict comprehension that maps question ids to question texts. */
  function QuestionMap(questionData: Json): Option<Table>
  {
    match PromptList(questionData)
    case None => None
    case Some(prompts) =>
      match MapOpt(prompts, QuestionEntry)
      case None => None
      case Some(entries) => Some(PutAll([], entries))
  }

  /** Every prompt of the mapping maps its id to its text, the last one winning among
      prompts that share an id. */
  lemma QuestionMapLookup(questionData: Json, i: nat)
    requires QuestionMap(questionData).Some?
    requires i < |PromptList(questionData).value|
    requires var ps := PromptList(questionData).value;
      forall j :: i < j < |ps| ==> At(ps[j], "id") != At(ps[i], "id")
    ensures var ps := PromptList(questionData).value;
      && At(ps[i], "id").Some? && At(ps[i], "prompt").Some?
      && Get(QuestionMap(questionData).value, At(ps[i], "id").value) == At(ps[i], "prompt")
  {
    var ps := PromptList(questionData).value;
    var es := MapOpt(ps, QuestionEntry).value;
    assert QuestionEntry(ps[i]) == Some(es[i]);
    forall j | i < j < |es| ensures es[j].0 != es[i].0 {
      assert QuestionEntry(ps[j]) == Some(es[j]);
    }
    PutAllLast([], es, i);
  }

  /** The mapping knows no question id that no prompt has. */
  lemma QuestionMapKeys(questionData: Json, k: Json)
    requires QuestionMap(questionData).Some?
    requires Get(QuestionMap(questionData).value, k).Some?
    ensures var ps := PromptList(questionData).value;
      exists i :: 0 <= i < |ps| && At(ps[i], "id") == Some(k)
  {
    var ps := PromptList(questionData).value;
    var es := MapOpt(ps, QuestionEntry).value;
    if forall j :: 0 <= j < |es| ==> es[j].0 != k {
      PutAllUntouched([], es, k);
      assert false;
    }
    var j :| 0 <= j < |es| && es[j].0 == k;
    assert QuestionEntry(ps[j]) == Some(es[j]);
  }

  // ----- Subject ids and rating tokens ---------------------------------------------------

  /** `subject["subjectId"]` and `subject["ratingToken"]`; the id must be hashable to key
      the token dict. */
  function SubjectEntry(subject: Json): Option<(Json, Json)>
  {
    match At(subject, "subjectId")
    case None => None
    case Some(id) =>
      match At(subject, "ratingToken")
      case None => None
      case Some(token) => if Hashable(id) then Some((id, token)) else None
  }

  /** The subjects of one feed, `feed.get("subjects", [])` iterated. */
  function FeedItems(feed: Json): Option<seq<Json>>
  {
    match GetOr(feed, "subjects", Arr([]))
    case None => None
    case Some(subjects) => Iter(subjects)
  }

  function FeedEntries(feed: Json): Option<Entries>
  {
    match FeedItems(feed)
    case None => None
    case Some(items) => MapOpt(items, SubjectEntry)
  }

  /** `recommendations.get("feeds", [])` iterated. */
  function FeedList(recommendations: Json): Option<seq<Json>>
  {
    match GetOr(recommendations, "feeds", Arr([]))
    case None => None
    case Some(feeds) => Iter(feeds)
  }

  /** The subjects of every feed, feed after feed. */
  function RecommendedEntries(recommendations: Json): Option<Entries>
  {
    match FeedList(recommendations)
    case None => None
    case Some(feeds) =>
      match MapOpt(feeds, FeedEntries)
      case None => None
      case Some(perFeed) => Some(Flatten(perFeed))
  }

  /** `standouts.get("free", []) + standouts.get("paid", [])` iterated. */
  function StandoutItems(standouts: Json): Option<seq<Json>>
  {
    match GetOr(standouts, "free", Arr([]))
    case None => None
    case Some(free) =>
      match Concat(free, GetOr(standouts, "paid", Arr([])).value)
      case None => None
      case Some(both) => Iter(both)
  }

  function StandoutEntries(standouts: Json): Option<Entries>
  {
    match StandoutItems(standouts)
    case None => None
    case Some(items) => MapOpt(items, SubjectEntry)
  }

  /** `user_ids` and `rating_tokens` as built from a listing's entries: every id in order,
      and each id's token from its last entry. */
  datatype Extracted = Extracted(userIds: seq<Json>, ratingTokens: Table)

  function ExtractedOf(entries: Entries): Extracted
  {
    Extracted(Keys(entries), PutAll([], entries))
  }

  /** The token table has an entry for exactly the listed ids, each holding the token of
      that id's last listing. */
  lemma ExtractedTokens(entries: Entries, i: nat)
    requires i < |entries|
    requires forall j :: i < j < |entries| ==> entries[j].0 != entries[i].0
    ensures ExtractedOf(entries).userIds[i] == entries[i].0
    ensures Get(ExtractedOf(entries).ratingTokens, entries[i].0) == Some(entries[i].1)
  {
    PutAllLast([], entries, i);
  }

  lemma ExtractedTokensOnlyListed(entries: Entries, k: Json)
    requires k !in ExtractedOf(entries).userIds
    ensures Get(ExtractedOf(entries).ratingTokens, k).None?
  {
    forall j | 0 <= j < |entries| ensures entries[j].0 != k {
      assert Keys(entries)[j] == entries[j].0;
    }
    PutAllUntouched([], entries, k);
  }

  lemma ExtractedSnoc(entries: Entries, e: (Json, Json))
    ensures ExtractedOf(entries + [e]).userIds == ExtractedOf(entries).userIds + [e.0]
    ensures ExtractedOf(entries + [e]).ratingTokens == Put(ExtractedOf(entries).ratingTokens, e.0, e.1)
  {
    KeysAppend(entries, [e]);
    assert (entries + [e])[..|entries|] == entries;
  }

  /** The loop over feeds that fills `user_ids` and `rating_tokens`; the inner loop over
      one feed's subjects is `ExtendWithSubjects`. */
  method ExtractRecommended(recommendations: Json) returns (r: Option<Extracted>)
    ensures r.Some? <==> RecommendedEntries(recommendations).Some?
    ensures r.Some? ==> r.value == ExtractedOf(RecommendedEntries(recommendations).value)
  {
    var feeds := FeedList(recommendations);
    if feeds.None? {
      return None;
    }
    var fs := feeds.value;
    var userIds: seq<Json> := [];
    var ratingTokens: Table := [];
    ghost var done: seq<Entries> := [];
    var i := 0;
    while i < |fs|
      invariant 0 <= i <= |fs|
      invariant MapOpt(fs[..i], FeedEntries) == Some(done)
      invariant userIds == Keys(Flatten(done)) && ratingTokens == PutAll([], Flatten(done))
    {
      var items := FeedItems(fs[i]);
      MapOptStep(fs, i, FeedEntries);
      if items.None? {
        return None;
      }
      var next := ExtendWithSubjects(items.value, userIds, ratingTokens, Flatten(done));
      if next.None? {
        return None;
      }
      ghost var current := FeedEntries(fs[i]).value;
      FlattenSnoc(done, current);
      userIds, ratingTokens := next.value.0, next.value.1;
      done := done + [current];
      i := i + 1;
    }
    assert fs[..i] == fs;
    r := Some(Extracted(userIds, ratingTokens));
  }

  /** The inner loop: the subjects of one feed extend ids and tokens built from `prior`. */
  method ExtendWithSubjects(subjects: seq<Json>, userIds: seq<Json>, ratingTokens: Table,
                            ghost prior: Entries)
    returns (r: Option<(seq<Json>, Table)>)
    requires userIds == Keys(prior) && ratingTokens == PutAll([], prior)
    ensures r.Some? <==> MapOpt(subjects, SubjectEntry).Some?
    ensures r.Some? ==> var es := prior + MapOpt(subjects, SubjectEntry).value;
      r.value == (Keys(es), PutAll([], es))
  {
    var ids, tokens := userIds, ratingTokens;
    ghost var current: Entries := [];
    assert prior + current == prior;
    assert subjects[..0] == [];
    var j := 0;
    while j < |subjects|
      invariant 0 <= j <= |subjects|
      invariant MapOpt(subjects[..j], SubjectEntry) == Some(current)
      invariant Extracted(ids, tokens) == ExtractedOf(prior + current)
    {
      var e := SubjectEntry(subjects[j]);
      MapOptStep(subjects, j, SubjectEntry);
      if e.None? {
        return None;
      }
      ExtendStep(prior, current, e.value);
      ids := ids + [e.value.0];
      tokens := Put(tokens, e.value.0, e.value.1);
      current := current + [e.value];
      j := j + 1;
    }
    assert subjects[..j] == subjects;
    assert Extracted(ids, tokens) == ExtractedOf(prior + MapOpt(subjects, SubjectEntry).value);
    r := Some((ids, tokens));
  }

  lemma ExtendStep(prior: Entries, current: Entries, e: (Json, Json))
    ensures var x := ExtractedOf(prior + current);
      ExtractedOf(prior + (current + [e])) == Extracted(x.userIds + [e.0], Put(x.ratingTokens, e.0, e.1))
  {
    ExtractedSnoc(prior + current, e);
    SnocAssoc(prior, current, e);
  }

  /** The loop over free and paid standouts that fills `user_ids` and `rating_tokens`. */
  method ExtractStandouts(standouts: Json) returns (r: Option<Extracted>)
    ensures r.Some? <==> StandoutEntries(standouts).Some?
    ensures r.Some? ==> r.value == ExtractedOf(StandoutEntries(standouts).value)
  {
    var items := StandoutItems(standouts);
    if items.None? {
      return None;
    }
    var xs := items.value;
    var userIds: seq<Json> := [];
    var ratingTokens: Table := [];
    ghost var current: Entries := [];
    var j := 0;
    while j < |xs|
      invariant 0 <= j <= |xs|
      invariant MapOpt(xs[..j], SubjectEntry) == Some(current)
      invariant userIds == Keys(current) && ratingTokens == PutAll([], current)
    {
      var e := SubjectEntry(xs[j]);
      MapOptStep(xs, j, SubjectEntry);
      if e.None? {
        return None;
      }
      ExtractedSnoc(current, e.value);
      userIds := userIds + [e.value.0];
      ratingTokens := Put(ratingTokens, e.value.0, e.value.1);
      current := current + [e.value];
      j := j + 1;
    }
    assert xs[..j] == xs;
    r := Some(Extracted(userIds, ratingTokens));
  }

  /** The ids as `",".join` accepts them: every one must be a string. */
  function IdStrings(ids: seq<Json>): (r: Option<seq<string>>)
    ensures r.Some? <==> forall i :: 0 <= i < |ids| ==> ids[i].Str?
    ensures r.Some? ==> |r.value| == |ids| && forall i :: 0 <= i < |ids| ==> ids[i] == Str(r.value[i])
  {
    MapOpt(ids, AsString)
  }

  function AsString(j: Json): Option<string>
  {
    if j.Str? then Some(j.s) else None
  }

  // ----- Projecting one public profile ---------------------------------------------------

  const UnknownQuestion := "Unknown Question"

  const TextPromptKeys := ["question", "question_id", "type", "response"]
  const VoicePromptKeys := ["question", "question_id", "type", "response", "voice_url", "waveform"]

  /** One answer as a prompt record: the question text from the mapping (or
      "Unknown Question"), the question id, the type (default "text") and the response;
      a voice answer takes its response from the transcript and adds the voice url and
      the waveform. */
  function PromptOf(questions: Table, answer: Json): Option<Json>
  {
    match At(answer, "questionId")
    case None => None
    case Some(qid) =>
      if !Hashable(qid) then None
      else
        var question := Get(questions, qid).GetOr(Str(UnknownQuestion));
        var kind := GetOr(answer, "type", Str("text")).value;
        if kind == Str("voice") then
          match GetOr(GetOr(answer, "transcription", Obj([])).value, "transcript", Str(""))
          case None => None
          case Some(transcript) =>
            Some(VoicePrompt(question, qid, transcript, GetOr(answer, "url", Null).value,
                             GetOr(answer, "waveform", Null).value))
        else
          Some(TextPrompt(question, qid, kind, GetOr(answer, "response", Str("")).value))
  }

  function TextPrompt(question: Json, qid: Json, kind: Json, response: Json): Json
  {
    Obj(Zip(TextPromptKeys, [question, qid, kind, response]))
  }

  function VoicePrompt(question: Json, qid: Json, transcript: Json, url: Json, waveform: Json): Json
  {
    Obj(Zip(VoicePromptKeys, [question, qid, Str("voice"), transcript, url, waveform]))
  }

  lemma VoicePromptFields(question: Json, qid: Json, transcript: Json, url: Json, waveform: Json)
    ensures var r := VoicePrompt(question, qid, transcript, url, waveform).fields;
      && Get(r, "response") == Some(transcript)
      && Get(r, "voice_url") == Some(url)
      && Get(r, "waveform") == Some(waveform)
  {
    var ks := VoicePromptKeys;
    var vs := [question, qid, Str("voice"), transcript, url, waveform];
    KeysDistinct6(ks);
    ZipLookup(ks, vs, 3);
    ZipLookup(ks, vs, 4);
    ZipLookup(ks, vs, 5);
  }

  lemma KeysDistinct6(ks: seq<string>)
    requires ks == VoicePromptKeys
    ensures forall j :: 0 <= j < 3 ==> ks[j] != ks[3]
    ensures forall j :: 0 <= j < 4 ==> ks[j] != ks[4]
    ensures forall j :: 0 <= j < 5 ==> ks[j] != ks[5]
  {
  }

  function PromptMapper(questions: Table): Json -> Option<Json>
  {
    answer => PromptOf(questions, answer)
  }

  /** The first three keys of every prompt record. */
  lemma PromptHead(questions: Table, answer: Json)
    requires PromptOf(questions, answer).Some?
    ensures var qid := At(answer, "questionId");
      var r := PromptOf(questions, answer).value;
      && qid.Some? && Hashable(qid.value) && r.Obj?
      && Get(r.fields, "question") == Some(Get(questions, qid.value).GetOr(Str(UnknownQuestion)))
      && Get(r.fields, "question_id") == qid
      && Get(r.fields, "type") == Some(GetOr(answer, "type", Str("text")).value)
  {
    var qid := At(answer, "questionId").value;
    var question := Get(questions, qid).GetOr(Str(UnknownQuestion));
    var kind := GetOr(answer, "type", Str("text")).value;
    if kind == Str("voice") {
      var transcript :=
        GetOr(GetOr(answer, "transcription", Obj([])).value, "transcript", Str("")).value;
      var vs := [question, qid, Str("voice"), transcript, GetOr(answer, "url", Null).value,
                 GetOr(answer, "waveform", Null).value];
      HeadKeysDistinct(VoicePromptKeys);
      ZipLookup(VoicePromptKeys, vs, 0);
      ZipLookup(VoicePromptKeys, vs, 1);
      ZipLookup(VoicePromptKeys, vs, 2);
    } else {
      var vs := [question, qid, kind, GetOr(answer, "response", Str("")).value];
      HeadKeysDistinct(TextPromptKeys);
      ZipLookup(TextPromptKeys, vs, 0);
      ZipLookup(TextPromptKeys, vs, 1);
      ZipLookup(TextPromptKeys, vs, 2);
    }
  }

  lemma HeadKeysDistinct(ks: seq<string>)
    requires ks == TextPromptKeys || ks == VoicePromptKeys
    ensures |ks| >= 3 && ks[0] == "question" && ks[1] == "question_id" && ks[2] == "type"
    ensures forall j :: 0 <= j < 1 ==> ks[j] != ks[1]
    ensures forall j :: 0 <= j < 2 ==> ks[j] != ks[2]
  {
    assert |ks[0]| == 8 && |ks[1]| == 11 && |ks[2]| == 4;
  }

  /** A text answer's record carries its response (default ""). */
  lemma PromptText(questions: Table, answer: Json)
    requires PromptOf(questions, answer).Some?
    requires GetOr(answer, "type", Str("text")) != Some(Str("voice"))
    ensures var r := PromptOf(questions, answer).value;
      && r.Obj? && Keys(r.fields) == TextPromptKeys
      && Get(r.fields, "response") == GetOr(answer, "response", Str(""))
  {
    var qid := At(answer, "questionId").value;
    var vs := [Get(questions, qid).GetOr(Str(UnknownQuestion)), qid,
               GetOr(answer, "type", Str("text")).value, GetOr(answer, "response", Str("")).value];
    TextKeysDistinct(TextPromptKeys);
    ZipLookup(TextPromptKeys, vs, 3);
  }

  lemma TextKeysDistinct(ks: seq<string>)
    requires ks == TextPromptKeys
    ensures |ks| == 4 && ks[3] == "response"
    ensures forall j :: 0 <= j < 3 ==> ks[j] != ks[3]
  {
    assert ks[0][0] == 'q' && ks[3][0] == 'r';
    assert |ks[1]| == 11 && |ks[2]| == 4 && |ks[3]| == 8;
  }

  /** A voice answer's record carries the transcript (default "") as its response, and
      the voice url and the waveform. */
  lemma PromptVoice(questions: Table, answer: Json)
    requires PromptOf(questions, answer).Some?
    requires GetOr(answer, "type", Str("text")) == Some(Str("voice"))
    ensures var r := PromptOf(questions, answer).value;
      && r.Obj? && Keys(r.fields) == VoicePromptKeys
      && Get(r.fields, "response") ==
           GetOr(GetOr(answer, "transcription", Obj([])).value, "transcript", Str(""))
      && Get(r.fields, "voice_url") == GetOr(answer, "url", Null)
      && Get(r.fields, "waveform") == GetOr(answer, "waveform", Null)
  {
    var qid := At(answer, "questionId").value;
    var transcript :=
      GetOr(GetOr(answer, "transcription", Obj([])).value, "transcript", Str("")).value;
    VoicePromptFields(Get(questions, qid).GetOr(Str(UnknownQuestion)), qid, transcript,
                      GetOr(answer, "url", Null).value, GetOr(answer, "waveform", Null).value);
  }

  /** An answer fails to project exactly when it has no usable question id, or it is a
      voice answer whose transcription is not a dict. */
  lemma PromptFails(questions: Table, answer: Json)
    ensures PromptOf(questions, answer).None? <==>
      || At(answer, "questionId").None?
      || !Hashable(At(answer, "questionId").value)
      || (GetOr(answer, "type", Str("text")) == Some(Str("voice"))
          && !GetOr(answer, "transcription", Obj([])).value.Obj?)
  {
  }

  /** `{"url": photo["url"], "cdn_id": photo.get("cdnId"), "content_id": photo.get("contentId")}` */
  function ImageOf(photo: Json): Option<Json>
  {
    match At(photo, "url")
    case None => None
    case Some(url) =>
      Some(Obj([("url", url), ("cdn_id", GetOr(photo, "cdnId", Null).value),
                ("content_id", GetOr(photo, "contentId", Null).value)]))
  }

  /** An image needs the photo's `url`; its `cdn_id` and `content_id` are `None` when the
      photo lacks them. */
  lemma ImageFacts(photo: Json)
    ensures ImageOf(photo).Some? <==> At(photo, "url").Some?
    ensures ImageOf(photo).Some? ==> var f := ImageOf(photo).value.fields;
      && Keys(f) == ["url", "cdn_id", "content_id"]
      && Get(f, "url") == At(photo, "url")
      && Get(f, "cdn_id") == GetOr(photo, "cdnId", Null)
      && Get(f, "content_id") == GetOr(photo, "contentId", Null)
  {
    if At(photo, "url").Some? {
      var f := ImageOf(photo).value.fields;
      assert |f[0].0| == 3 && |f[1].0| == 6 && |f[2].0| == 10;
      GetFirstEntry(f, 0);
      GetFirstEntry(f, 1);
      GetFirstEntry(f, 2);
    }
  }

  /** Fields kept in `profile_info`. */
  predicate Shown(key: string)
  {
    key != "answers" && key != "photos"
  }

  function ListOf(profileData: Json, key: string): Option<seq<Json>>
  {
    match GetOr(profileData, key, Arr([]))
    case None => None
    case Some(v) => Iter(v)
  }

  /** The `interaction_data` of a record. */
  function Interaction(userId: Json, tokens: Table, source: string): Json
  {
    Obj([("subject_id", userId), ("rating_token", Get(tokens, userId).GetOr(Null)),
         ("source", Str(source))])
  }

  const RecordKeys := ["profile_info", "prompts", "images", "interaction_data"]

  function Record(info: Dict<string, Json>, prompts: seq<Json>, images: seq<Json>,
                  interaction: Json): Json
  {
    Obj(Zip(RecordKeys, [Obj(info), Arr(prompts), Arr(images), interaction]))
  }

  /** The saved record of one profile. `profile_data` must be a dict (`.items()`), and the
      user id hashable (`rating_tokens.get(user_id)`). */
  function ProfileRecord(questions: Table, tokens: Table, userId: Json, profileData: Json,
                         source: string): Option<Json>
  {
    if !profileData.Obj? || !Hashable(userId) then None
    else
      match ListOf(profileData, "answers")
      case None => None
      case Some(answers) =>
        match MapOpt(answers, PromptMapper(questions))
        case None => None
        case Some(prompts) =>
          match ListOf(profileData, "photos")
          case None => None
          case Some(photos) =>
            match MapOpt(photos, ImageOf)
            case None => None
            case Some(images) =>
              Some(Record(Filter(profileData.fields, Shown), prompts, images,
                          Interaction(userId, tokens, source)))
  }

  /** `record["interaction_data"]["subject_id"]` */
  function SubjectOf(record: Json): Option<Json>
  {
    match At(record, "interaction_data")
    case None => None
    case Some(d) => At(d, "subject_id")
  }

  /** `record["interaction_data"]["source"]` */
  function SourceOf(record: Json): Option<Json>
  {
    match At(record, "interaction_data")
    case None => None
    case Some(d) => At(d, "source")
  }

  lemma InteractionFacts(userId: Json, tokens: Table, source: string)
    ensures var d := Interaction(userId, tokens, source).fields;
      && Get(d, "subject_id") == Some(userId)
      && Get(d, "rating_token") == Some(Get(tokens, userId).GetOr(Null))
      && Get(d, "source") == Some(Str(source))
  {
    var d := Interaction(userId, tokens, source).fields;
    GetFirstEntry(d, 1);
    GetFirstEntry(d, 2);
  }

  lemma RecordFields(info: Dict<string, Json>, prompts: seq<Json>, images: seq<Json>,
                     interaction: Json)
    ensures var r := Record(info, prompts, images, interaction).fields;
      && Keys(r) == RecordKeys
      && Get(r, "profile_info") == Some(Obj(info))
      && Get(r, "prompts") == Some(Arr(prompts))
      && Get(r, "images") == Some(Arr(images))
      && Get(r, "interaction_data") == Some(interaction)
  {
    var ks := RecordKeys;
    var vs := [Obj(info), Arr(prompts), Arr(images), interaction];
    assert ks[1] != ks[0];
    assert ks[2] != ks[0] && ks[2] != ks[1];
    assert ks[3] != ks[0] && ks[3] != ks[1] && ks[3] != ks[2];
    ZipLookup(ks, vs, 0);
    ZipLookup(ks, vs, 1);
    ZipLookup(ks, vs, 2);
    ZipLookup(ks, vs, 3);
  }

  /** A saved record names its subject and source, carries the subject's rating token
      (None when the listing had none), one prompt per answer and one image per photo, in
      their order, and every profile field except the answers and photos. */
  lemma RecordFacts(questions: Table, tokens: Table, userId: Json, profileData: Json,
                    source: string)
    requires ProfileRecord(questions, tokens, userId, profileData, source).Some?
    ensures var r := ProfileRecord(questions, tokens, userId, profileData, source).value;
      && SubjectOf(r) == Some(userId)
      && SourceOf(r) == Some(Str(source))
      && At(r, "interaction_data").value.Obj?
      && Get(At(r, "interaction_data").value.fields, "rating_token") ==
           Some(Get(tokens, userId).GetOr(Null))
      && At(r, "prompts").Some? && At(r, "prompts").value.Arr?
      && |At(r, "prompts").value.items| == |ListOf(profileData, "answers").value|
      && At(r, "images").Some? && At(r, "images").value.Arr?
      && |At(r, "images").value.items| == |ListOf(profileData, "photos").value|
      && At(r, "profile_info") == Some(Obj(Filter(profileData.fields, Shown)))
      && (forall i :: 0 <= i < |ListOf(profileData, "answers").value| ==>
            PromptOf(questions, ListOf(profileData, "answers").value[i]) == Some(At(r, "prompts").value.items[i]))
      && (forall i :: 0 <= i < |ListOf(profileData, "photos").value| ==>
            ImageOf(ListOf(profileData, "photos").value[i]) == Some(At(r, "images").value.items[i]))
  {
    var answers := ListOf(profileData, "answers").value;
    var photos := ListOf(profileData, "photos").value;
    var prompts := MapOpt(answers, PromptMapper(questions)).value;
    var images := MapOpt(photos, ImageOf).value;
    RecordFields(Filter(profileData.fields, Shown), prompts, images,
                 Interaction(userId, tokens, source));
    InteractionFacts(userId, tokens, source);
  }

  /** The loop that builds `prompts`, one record per answer. */
  method CollectPrompts(questions: Table, answers: seq<Json>) returns (r: Option<seq<Json>>)
    ensures r == MapOpt(answers, PromptMapper(questions))
  {
    var prompts: seq<Json> := [];
    var j := 0;
    while j < |answers|
      invariant 0 <= j <= |answers|
      invariant MapOpt(answers[..j], PromptMapper(questions)) == Some(prompts)
    {
      var p := PromptOf(questions, answers[j]);
      MapOptStep(answers, j, PromptMapper(questions));
      if p.None? {
        return None;
      }
      prompts := prompts + [p.value];
      j := j + 1;
    }
    assert answers[..j] == answers;
    r := Some(prompts);
  }

  /** One profile's record, its prompts built by `CollectPrompts`. */
  method BuildRecord(questions: Table, tokens: Table, userId: Json, profileData: Json,
                     source: string) returns (r: Option<Json>)
    ensures r == ProfileRecord(questions, tokens, userId, profileData, source)
  {
    if !profileData.Obj? || !Hashable(userId) {
      return None;
    }
    var answers := ListOf(profileData, "answers");
    if answers.None? {
      return None;
    }
    var prompts := CollectPrompts(questions, answers.value);
    if prompts.None? {
      return None;
    }
    var photos := ListOf(profileData, "photos");
    if photos.None? {
      return None;
    }
    var images := MapOpt(photos.value, ImageOf);
    if images.None? {
      return None;
    }
    r := Some(Record(Filter(profileData.fields, Shown), prompts.value, images.value,
                     Interaction(userId, tokens, source)));
  }

  // ----- One scrape iteration's merge into the saved data --------------------------------

  /** The saved data and the iteration's counters `new_profiles`, `duplicate_profiles`. */
  datatype Batch = Batch(data: Table, added: nat, skipped: nat)

  /** One profile of a scrape iteration: a subject already saved is counted and skipped
      (its profile is not read); a new one is projected and appended. */
  function MergeStep(questions: Table, tokens: Table, b: Batch, profile: Json): Option<Batch>
  {
    match At(profile, "identityId")
    case None => None
    case Some(userId) =>
      if !Hashable(userId) then None
      else if userId in Keys(b.data) then Some(Batch(b.data, b.added, b.skipped + 1))
      else
        Admit(b, userId, ProfileRecord(questions, tokens, userId,
                                       GetOr(profile, "profile", Obj([])).value,
                                       Recommendations.Value()))
  }

  /** A new subject's record, when one could be built, appended under its id. */
  function Admit(b: Batch, userId: Json, record: Option<Json>): Option<Batch>
  {
    match record
    case None => None
    case Some(rec) => Some(Batch(Put(b.data, userId, rec), b.added + 1, b.skipped))
  }

  function MergeFn(questions: Table, tokens: Table): (Batch, Json) -> Option<Batch>
  {
    (b, profile) => MergeStep(questions, tokens, b, profile)
  }

  /** The profiles of one iteration merged into the saved data, counters from zero. */
  function Merge(questions: Table, tokens: Table, data: Table, profiles: seq<Json>): Option<Batch>
  {
    FoldOpt(Batch(data, 0, 0), profiles, MergeFn(questions, tokens))
  }

  /** Entries from position `from` on are keyed by the subject their record names. */
  ghost predicate SelfKeyed(d: Table, from: nat)
  {
    forall i :: from <= i < |d| ==> SubjectOf(d[i].1) == Some(d[i].0)
  }

  /** What every merge keeps: each profile is counted once, as added or as skipped; the
      data only grows, by exactly the added profiles, appended after what was there;
      every appended record names the subject it is saved under; keys stay distinct. */
  ghost predicate Extends(b: Batch, b': Batch)
  {
    && Grows(b, b')
    && SelfKeyed(b'.data, |b.data|)
    && (Wf(b.data) ==> Wf(b'.data))
  }

  /** The counting and appending part of `Extends`. */
  ghost predicate Grows(b: Batch, b': Batch)
  {
    && b'.added >= b.added
    && |b'.data| == |b.data| + (b'.added - b.added)
    && b'.data[..|b.data|] == b.data
  }

  /** One profile: a saved subject leaves the data alone and counts as skipped; a new one
      is appended, as its projection tagged `recommendations`, and counts as added. */
  lemma MergeStepFacts(questions: Table, tokens: Table, b: Batch, profile: Json)
    requires MergeStep(questions, tokens, b, profile).Some?
    ensures var b' := MergeStep(questions, tokens, b, profile).value;
      && b'.added + b'.skipped == b.added + b.skipped + 1
      && Extends(b, b')
      && (b'.skipped > b.skipped <==> At(profile, "identityId").value in Keys(b.data))
    ensures var b' := MergeStep(questions, tokens, b, profile).value;
      var userId := At(profile, "identityId").value;
      var pd := GetOr(profile, "profile", Obj([])).value;
      && (userId in Keys(b.data) ==> b'.data == b.data)
      && (userId !in Keys(b.data) ==>
            && ProfileRecord(questions, tokens, userId, pd, "recommendations").Some?
            && b'.data == b.data + [(userId, ProfileRecord(questions, tokens, userId, pd, "recommendations").value)])
  {
    var userId := At(profile, "identityId").value;
    if userId !in Keys(b.data) {
      var pd := GetOr(profile, "profile", Obj([])).value;
      var record := ProfileRecord(questions, tokens, userId, pd, Recommendations.Value()).value;
      assert MergeStep(questions, tokens, b, profile).value ==
        Batch(Put(b.data, userId, record), b.added + 1, b.skipped);
      RecordFacts(questions, tokens, userId, pd, Recommendations.Value());
      AppendFacts(b, userId, record);
      PutNew(b.data, userId, record);
    } else {
      assert MergeStep(questions, tokens, b, profile).value == Batch(b.data, b.added, b.skipped + 1);
    }
  }

  /** Saving a record under a new key that it names extends the batch. */
  lemma AppendFacts(b: Batch, userId: Json, record: Json)
    requires userId !in Keys(b.data) && SubjectOf(record) == Some(userId)
    ensures Extends(b, Batch(Put(b.data, userId, record), b.added + 1, b.skipped))
  {
    PutNew(b.data, userId, record);
    SnocPrefix(b.data, (userId, record));
    AppendSelfKeyed(b.data, userId, record);
    if Wf(b.data) {
      PutWf(b.data, userId, record);
    }
  }

  lemma AppendSelfKeyed(d: Table, userId: Json, record: Json)
    requires SubjectOf(record) == Some(userId)
    ensures SelfKeyed(d + [(userId, record)], |d|)
  {
    var d' := d + [(userId, record)];
    assert d'[|d|] == (userId, record);
  }

  lemma ExtendsTrans(b0: Batch, b1: Batch, b2: Batch)
    requires Extends(b0, b1) && Extends(b1, b2)
    ensures Extends(b0, b2)
  {
    PrefixTrans(b0.data, b1.data, b2.data);
    SelfKeyedTrans(b0.data, b1.data, b2.data);
  }

  lemma SelfKeyedTrans(d0: Table, d1: Table, d2: Table)
    requires |d0| <= |d1| <= |d2| && d2[..|d1|] == d1
    requires SelfKeyed(d1, |d0|) && SelfKeyed(d2, |d1|)
    ensures SelfKeyed(d2, |d0|)
  {
    forall i | |d0| <= i < |d2| ensures SubjectOf(d2[i].1) == Some(d2[i].0) {
      if i < |d1| {
        assert d2[i] == d2[..|d1|][i];
      }
    }
  }

  /** A whole merge, by induction over the profiles. */
  lemma {:induction false} FoldMergeFacts(questions: Table, tokens: Table, b: Batch,
                                          profiles: seq<Json>)
    requires FoldOpt(b, profiles, MergeFn(questions, tokens)).Some?
    ensures var b' := FoldOpt(b, profiles, MergeFn(questions, tokens)).value;
      b'.added + b'.skipped == b.added + b.skipped + |profiles| && Extends(b, b')
    decreases |profiles|
  {
    var f := MergeFn(questions, tokens);
    if profiles == [] {
      assert FoldOpt(b, profiles, f) == Some(b);
    } else {
      var n := |profiles| - 1;
      var front := profiles[..n];
      assert FoldOpt(b, profiles, f) == match FoldOpt(b, front, f)
        case None => None case Some(t) => f(t, profiles[n]);
      FoldMergeFacts(questions, tokens, b, front);
      var mid := FoldOpt(b, front, f).value;
      MergeStepFacts(questions, tokens, mid, profiles[n]);
      ExtendsTrans(b, mid, FoldOpt(b, profiles, f).value);
    }
  }

  /** The counts logged for an iteration add up to the profiles served, the saved data
      grows by exactly the added ones, only by appending, and every appended record is
      saved under the subject it names. */
  lemma MergeFacts(questions: Table, tokens: Table, data: Table, profiles: seq<Json>)
    requires Merge(questions, tokens, data, profiles).Some?
    ensures var b := Merge(questions, tokens, data, profiles).value;
      && b.added + b.skipped == |profiles|
      && |b.data| == |data| + b.added
      && b.data[..|data|] == data
      && SelfKeyed(b.data, |data|)
      && (Wf(data) ==> Wf(b.data))
  {
    FoldMergeFacts(questions, tokens, Batch(data, 0, 0), profiles);
  }

  /** A profile whose subject is saved already changes nothing but the skip count, even
      when the rest of it could not be projected. */
  lemma MergeSkipsSaved(questions: Table, tokens: Table, b: Batch, profile: Json)
    requires At(profile, "identityId").Some? && Hashable(At(profile, "identityId").value)
    requires At(profile, "identityId").value in Keys(b.data)
    ensures MergeStep(questions, tokens, b, profile) == Some(Batch(b.data, b.added, b.skipped + 1))
  {
  }

  /** A profile served a second time, within the same iteration or a later one, is a
      duplicate: it only raises the skip count. */
  lemma MergeStepRepeat(questions: Table, tokens: Table, b: Batch, profile: Json)
    requires MergeStep(questions, tokens, b, profile).Some?
    ensures var b' := MergeStep(questions, tokens, b, profile).value;
      MergeStep(questions, tokens, b', profile) == Some(Batch(b'.data, b'.added, b'.skipped + 1))
  {
    var b' := MergeStep(questions, tokens, b, profile).value;
    var userId := At(profile, "identityId").value;
    MergeStepFacts(questions, tokens, b, profile);
    if userId !in Keys(b.data) {
      KeysAppend(b.data, [(userId, b'.data[|b.data|].1)]);
      assert Keys(b'.data)[|b.data|] == userId;
    }
    MergeSkipsSaved(questions, tokens, b', profile);
  }

  /** The loop over an iteration's profiles; its body is `MergeOne`. */
  method MergeProfiles(questions: Table, tokens: Table, data: Table, profiles: seq<Json>)
    returns (r: Option<Batch>)
    ensures r == Merge(questions, tokens, data, profiles)
  {
    var b := Batch(data, 0, 0);
    var j := 0;
    while j < |profiles|
      invariant 0 <= j <= |profiles|
      invariant FoldOpt(Batch(data, 0, 0), profiles[..j], MergeFn(questions, tokens)) == Some(b)
    {
      var next := MergeOne(questions, tokens, b, profiles[j]);
      FoldOptStep(Batch(data, 0, 0), profiles, j, MergeFn(questions, tokens), b);
      if next.None? {
        return None;
      }
      b := next.value;
      j := j + 1;
    }
    assert profiles[..j] == profiles;
    r := Some(b);
  }

  /** One pass of the loop body: skip a saved subject, otherwise build and save its record. */
  method MergeOne(questions: Table, tokens: Table, b: Batch, profile: Json) returns (r: Option<Batch>)
    ensures r == MergeStep(questions, tokens, b, profile)
  {
    var userId := At(profile, "identityId");
    if userId.None? || !Hashable(userId.value) {
      return None;
    }
    ghost var step := MergeStep(questions, tokens, b, profile);
    if userId.value in Keys(b.data) {
      assert step == Some(Batch(b.data, b.added, b.skipped + 1));
      return Some(Batch(b.data, b.added, b.skipped + 1));
    }
    var profileData := GetOr(profile, "profile", Obj([])).value;
    var record := BuildRecord(questions, tokens, userId.value, profileData,
                              Recommendations.Value());
    assert step == Admit(b, userId.value, record);
    if record.None? {
      return None;
    }
    r := Some(Batch(Put(b.data, userId.value, record.value), b.added + 1, b.skipped));
  }

  // ----- create_profile_json --------------------------------------------------------------

  /** What `create_profile_json` ends with: the data written to the output file, an early
      return because the listing had no subjects, or a raised exception. */
  datatype ProfileJson = Written(output: Table) | NoUsers | ProfileJsonFailed(failure: Failure)

  /** `output_data[user_id] = {...}` for one profile. */
  function ProfileEntry(questions: Table, tokens: Table, source: ProfileSource, profile: Json)
    : Option<(Json, Json)>
  {
    match At(profile, "identityId")
    case None => None
    case Some(userId) =>
      Keyed(userId, ProfileRecord(questions, tokens, userId,
                                  GetOr(profile, "profile", Obj([])).value, source.Value()))
  }

  /** An output entry exists exactly when the profile has an `identityId` and its
      `profile` projects into a record; the entry is then saved under that id and names
      it as its subject, from the listing's source. */
  lemma ProfileEntryFacts(questions: Table, tokens: Table, source: ProfileSource, profile: Json)
    ensures var r := ProfileEntry(questions, tokens, source, profile);
      var userId := At(profile, "identityId");
      && (userId.None? ==> r.None?)
      && (userId.Some? ==>
            var record := ProfileRecord(questions, tokens, userId.value,
                                        GetOr(profile, "profile", Obj([])).value, source.Value());
            && (r.Some? <==> record.Some?)
            && (GetOr(profile, "profile", Obj([])).value.Obj? || r.None?))
      && (r.Some? ==> userId == Some(r.value.0) && SavedAs(source.Value(), r.value))
  {
    var userId := At(profile, "identityId");
    if userId.Some? {
      var pd := GetOr(profile, "profile", Obj([])).value;
      if ProfileRecord(questions, tokens, userId.value, pd, source.Value()).Some? {
        RecordFacts(questions, tokens, userId.value, pd, source.Value());
      }
    }
  }

  /** A record, when one could be built, paired with its subject's id. */
  function Keyed(userId: Json, record: Option<Json>): Option<(Json, Json)>
  {
    match record
    case None => None
    case Some(rec) => Some((userId, rec))
  }

  function EntryMapper(questions: Table, tokens: Table, source: ProfileSource)
    : Json -> Option<(Json, Json)>
  {
    profile => ProfileEntry(questions, tokens, source, profile)
  }

  /** The output data: every profile's record, a later profile of the same subject
      overwriting an earlier one. */
  function OutputData(questions: Table, tokens: Table, source: ProfileSource, profiles: seq<Json>)
    : Option<Table>
  {
    match MapOpt(profiles, EntryMapper(questions, tokens, source))
    case None => None
    case Some(entries) => Some(PutAll([], entries))
  }

  /** The subjects of the chosen listing. */
  function ListingEntries(source: ProfileSource, listing: Json): Option<Entries>
  {
    if source == Standouts then StandoutEntries(listing) else RecommendedEntries(listing)
  }

  /** `create_profile_json` over the prompt mapping file (`None` when it does not exist),
      the listing fetched (`get_standouts` or `get_recommendations`), and the answer of
      `get_public_users` to the ids requested. */
  function ProfileJsonOutcome(source: ProfileSource, mapping: Option<Json>, listing: Fetched,
                              users: seq<string> -> Fetched): ProfileJson
  {
    match mapping
    case None => ProfileJsonFailed(MappingMissing)
    case Some(questionData) =>
      match QuestionMap(questionData)
      case None => ProfileJsonFailed(Malformed)
      case Some(questions) =>
        match listing
        case FetchFailed => ProfileJsonFailed(ApiFailure)
        case Fetched(body) =>
          match ListingEntries(source, body)
          case None => ProfileJsonFailed(Malformed)
          case Some(entries) =>
            if entries == [] then NoUsers
            else
              match IdStrings(Keys(entries))
              case None => ProfileJsonFailed(Malformed)
              case Some(ids) =>
                match users(ids)
                case FetchFailed => ProfileJsonFailed(ApiFailure)
                case Fetched(answer) =>
                  match Iter(answer)
                  case None => ProfileJsonFailed(Malformed)
                  case Some(profiles) =>
                    match OutputData(questions, PutAll([], entries), source, profiles)
                    case None => ProfileJsonFailed(Malformed)
                    case Some(output) => Written(output)
  }

  /** A record as saved: under the subject it names, from the source it names. */
  ghost predicate SavedAs(source: string, p: (Json, Json))
  {
    SubjectOf(p.1) == Some(p.0) && SourceOf(p.1) == Some(Str(source))
  }

  /** The output has distinct keys; each is the subject of some profile, and holds the
      record of the last profile of that subject, naming it and the source. */
  lemma OutputFacts(questions: Table, tokens: Table, source: ProfileSource, profiles: seq<Json>)
    requires OutputData(questions, tokens, source, profiles).Some?
    ensures var out := OutputData(questions, tokens, source, profiles).value;
      && Wf(out)
      && (forall i :: 0 <= i < |out| ==> SavedAs(source.Value(), out[i]))
      && (forall i :: 0 <= i < |out| ==>
            exists j :: 0 <= j < |profiles| && At(profiles[j], "identityId") == Some(out[i].0))
  {
    var es := MapOpt(profiles, EntryMapper(questions, tokens, source)).value;
    var out := PutAll([], es);
    PutAllWf([], es);
    PutAllFrom([], es);
    forall i | 0 <= i < |out|
      ensures SavedAs(source.Value(), out[i])
      ensures exists j :: 0 <= j < |profiles| && At(profiles[j], "identityId") == Some(out[i].0)
    {
      assert out[i] in es;
      var j :| 0 <= j < |es| && es[j] == out[i];
      assert ProfileEntry(questions, tokens, source, profiles[j]) == Some(es[j]);
      var userId := At(profiles[j], "identityId").value;
      RecordFacts(questions, tokens, userId, GetOr(profiles[j], "profile", Obj([])).value,
                  source.Value());
    }
  }

  /** The last profile of a subject is the one its key holds. */
  lemma OutputLast(questions: Table, tokens: Table, source: ProfileSource, profiles: seq<Json>,
                   j: nat)
    requires OutputData(questions, tokens, source, profiles).Some?
    requires j < |profiles|
    requires forall j' :: j < j' < |profiles| ==>
      At(profiles[j'], "identityId") != At(profiles[j], "identityId")
    ensures var userId := At(profiles[j], "identityId");
      && userId.Some?
      && Get(OutputData(questions, tokens, source, profiles).value, userId.value) ==
           ProfileRecord(questions, tokens, userId.value,
                         GetOr(profiles[j], "profile", Obj([])).value, source.Value())
  {
    var es := MapOpt(profiles, EntryMapper(questions, tokens, source)).value;
    OutputKeys(questions, tokens, source, profiles);
    assert ProfileEntry(questions, tokens, source, profiles[j]) == Some(es[j]);
    PutAllLast([], es, j);
  }

  /** The output's entries are keyed by their profiles' `identityId`s. */
  lemma OutputKeys(questions: Table, tokens: Table, source: ProfileSource, profiles: seq<Json>)
    requires OutputData(questions, tokens, source, profiles).Some?
    ensures var es := MapOpt(profiles, EntryMapper(questions, tokens, source)).value;
      && |es| == |profiles|
      && forall j :: 0 <= j < |profiles| ==>
           ProfileEntry(questions, tokens, source, profiles[j]) == Some(es[j]) &&
           At(profiles[j], "identityId") == Some(es[j].0)
  {
    var f := EntryMapper(questions, tokens, source);
    var es := MapOpt(profiles, f).value;
    forall j | 0 <= j < |profiles|
      ensures ProfileEntry(questions, tokens, source, profiles[j]) == Some(es[j])
      ensures At(profiles[j], "identityId") == Some(es[j].0)
    {
      assert f(profiles[j]) == Some(es[j]);
      ProfileEntryFacts(questions, tokens, source, profiles[j]);
    }
  }

  /** The function returns without writing exactly when the listing it read had no
      subjects. */
  lemma NoUsersExactly(source: ProfileSource, mapping: Option<Json>, listing: Fetched,
                       users: seq<string> -> Fetched)
    ensures ProfileJsonOutcome(source, mapping, listing, users) == NoUsers <==>
      && mapping.Some? && QuestionMap(mapping.value).Some?
      && listing.Fetched? && ListingEntries(source, listing.body) == Some([])
  {
  }

  /** The loop that fills `output_data`. */
  /** One pass of the output loop: a failing entry fails the whole output, a good one
      extends the entries and the table built so far. */
  lemma OutputStep(questions: Table, tokens: Table, source: ProfileSource, profiles: seq<Json>,
                   j: nat, entries: Entries)
    requires j < |profiles|
    requires MapOpt(profiles[..j], EntryMapper(questions, tokens, source)) == Some(entries)
    ensures var e := ProfileEntry(questions, tokens, source, profiles[j]);
      && (e.None? ==> OutputData(questions, tokens, source, profiles).None?)
      && (e.Some? ==>
            && MapOpt(profiles[..j + 1], EntryMapper(questions, tokens, source)) ==
                 Some(entries + [e.value])
            && PutAll([], entries + [e.value]) == Put(PutAll([], entries), e.value.0, e.value.1))
  {
    var f := EntryMapper(questions, tokens, source);
    MapOptStep(profiles, j, f);
    var e := ProfileEntry(questions, tokens, source, profiles[j]);
    assert f(profiles[j]) == e;
    if e.Some? {
      PutAllSnoc([], entries, e.value);
    }
  }

  method BuildOutput(questions: Table, tokens: Table, source: ProfileSource, profiles: seq<Json>)
    returns (r: Option<Table>)
    ensures r == OutputData(questions, tokens, source, profiles)
  {
    var outputData: Table := [];
    ghost var entries: Entries := [];
    var j := 0;
    while j < |profiles|
      invariant 0 <= j <= |profiles|
      invariant MapOpt(profiles[..j], EntryMapper(questions, tokens, source)) == Some(entries)
      invariant outputData == PutAll([], entries)
    {
      var e := BuildEntry(questions, tokens, source, profiles[j]);
      OutputStep(questions, tokens, source, profiles, j, entries);
      if e.None? {
        return None;
      }
      outputData := Put(outputData, e.value.0, e.value.1);
      entries := entries + [e.value];
      j := j + 1;
    }
    assert profiles[..j] == profiles;
    assert OutputData(questions, tokens, source, profiles) == Some(PutAll([], entries));
    r := Some(outputData);
  }

  /** One pass of the loop body: the subject's id and its record. */
  method BuildEntry(questions: Table, tokens: Table, source: ProfileSource, profile: Json)
    returns (e: Option<(Json, Json)>)
    ensures e == ProfileEntry(questions, tokens, source, profile)
  {
    var userId := At(profile, "identityId");
    if userId.None? {
      return None;
    }
    var record := BuildRecord(questions, tokens, userId.value,
                              GetOr(profile, "profile", Obj([])).value, source.Value());
    if record.None? {
      return None;
    }
    e := Some((userId.value, record.value));
  }

  /** `create_profile_json`, with the file reads and the two SDK calls as parameters. */
  method CreateProfileJson(source: ProfileSource, mapping: Option<Json>, listing: Fetched,
                           users: seq<string> -> Fetched) returns (r: ProfileJson)
    ensures r == ProfileJsonOutcome(source, mapping, listing, users)
  {
    if mapping.None? {
      return ProfileJsonFailed(MappingMissing);
    }
    var questions := QuestionMap(mapping.value);
    if questions.None? {
      return ProfileJsonFailed(Malformed);
    }
    if listing.FetchFailed? {
      return ProfileJsonFailed(ApiFailure);
    }
    var extracted: Option<Extracted>;
    if source == Standouts {
      extracted := ExtractStandouts(listing.body);
    } else {
      extracted := ExtractRecommended(listing.body);
    }
    if extracted.None? {
      return ProfileJsonFailed(Malformed);
    }
    if extracted.value.userIds == [] {
      return NoUsers;
    }
    var ids := IdStrings(extracted.value.userIds);
    if ids.None? {
      return ProfileJsonFailed(Malformed);
    }
    var answer := users(ids.value);
    if answer.FetchFailed? {
      return ProfileJsonFailed(ApiFailure);
    }
    var profiles := Iter(answer.body);
    if profiles.None? {
      return ProfileJsonFailed(Malformed);
    }
    var output := BuildOutput(questions.value, extracted.value.ratingTokens, source,
                              profiles.value);
    if output.None? {
      return ProfileJsonFailed(Malformed);
    }
    r := Written(output.value);
  }

  // ----- scrape_recommendations_multiple ----------------------------------------------------

  /** The output file as found at the start: absent, holding a decoded JSON value, or
      holding text that `json.load` cannot decode. */
  datatype SavedFile = NoFile | File(content: Json) | Undecodable

  /** What the run does to the outside world, in order: the file written after an
      iteration (with the iteration's counts and the data written), and the pause before
      the next iteration. */
  datatype Effect = Wrote(iteration: nat, added: nat, skipped: nat, snapshot: Table) | Slept(iteration: nat)

  /** The in-memory data, the effects so far, and the exception that ended the run. */
  datatype Run = Run(data: Table, effects: seq<Effect>, failure: Option<Failure>)

  /** How one iteration's fetches end: no subjects (`continue`), an exception, or the
      profiles merged. */
  datatype Harvest = NoSubjects | HarvestFailed(failure: Failure) | Merged(batch: Batch)

  /** The data a run starts from: `{}` without a file, the file's object otherwise;
      `None` when the file does not decode to an object. */
  function Initial(existing: SavedFile): Option<Table>
  {
    match existing
    case NoFile => Some([])
    case Undecodable => None
    case File(content) =>
      if content.Obj? then
        Some(seq(|content.fields|, i requires 0 <= i < |content.fields| =>
          (Str(content.fields[i].0), content.fields[i].1)))
      else None
  }

  /** Iteration `i`'s fetches: `recs(i)` answers `get_recommendations`, `users(i, ids)`
      answers `get_public_users(ids)`. */
  function HarvestOf(questions: Table, recs: nat -> Fetched, users: (nat, seq<string>) -> Fetched,
                     data: Table, i: nat): Harvest
  {
    match recs(i)
    case FetchFailed => HarvestFailed(ApiFailure)
    case Fetched(body) =>
      match RecommendedEntries(body)
      case None => HarvestFailed(Malformed)
      case Some(entries) =>
        if entries == [] then NoSubjects
        else
          match IdStrings(Keys(entries))
          case None => HarvestFailed(Malformed)
          case Some(ids) =>
            match users(i, ids)
            case FetchFailed => HarvestFailed(ApiFailure)
            case Fetched(answer) =>
              match Iter(answer)
              case None => HarvestFailed(Malformed)
              case Some(profiles) =>
                match Merge(questions, PutAll([], entries), data, profiles)
                case None => HarvestFailed(Malformed)
                case Some(b) => Merged(b)
  }

  function Harvester(questions: Table, recs: nat -> Fetched, users: (nat, seq<string>) -> Fetched)
    : (Table, nat) -> Harvest
  {
    (data: Table, i: nat) => HarvestOf(questions, recs, users, data, i)
  }

  /** A harvest's merges only append to the data they start from ... */
  ghost predicate Merging(harvest: (Table, nat) -> Harvest)
  {
    forall data, i :: harvest(data, i).Merged? ==> Grows(Batch(data, 0, 0), harvest(data, i).batch)
  }

  /** ... save each appended record under the subject it names ... */
  ghost predicate MergingKeyed(harvest: (Table, nat) -> Harvest)
  {
    forall data, i :: harvest(data, i).Merged? ==>
      SelfKeyed(harvest(data, i).batch.data, |data|)
  }

  /** ... and keep keys distinct. */
  ghost predicate MergingWf(harvest: (Table, nat) -> Harvest)
  {
    forall data, i :: harvest(data, i).Merged? && Wf(data) ==> Wf(harvest(data, i).batch.data)
  }

  lemma HarvestExtends(questions: Table, recs: nat -> Fetched, users: (nat, seq<string>) -> Fetched,
                       data: Table, i: nat)
    requires HarvestOf(questions, recs, users, data, i).Merged?
    ensures Extends(Batch(data, 0, 0), HarvestOf(questions, recs, users, data, i).batch)
  {
    var entries := RecommendedEntries(recs(i).body).value;
    var ids := IdStrings(Keys(entries)).value;
    MergeFacts(questions, PutAll([], entries), data, Iter(users(i, ids).body).value);
  }

  lemma HarvesterMerges(questions: Table, recs: nat -> Fetched, users: (nat, seq<string>) -> Fetched)
    ensures var h := Harvester(questions, recs, users);
      Merging(h) && MergingKeyed(h) && MergingWf(h)
  {
    forall data, i | HarvestOf(questions, recs, users, data, i).Merged?
      ensures Extends(Batch(data, 0, 0), HarvestOf(questions, recs, users, data, i).batch)
    {
      HarvestExtends(questions, recs, users, data, i);
    }
  }

  /** The write after a merged iteration, then the sleep unless it was the last. */
  function Commit(run: Run, i: nat, iterations: int, b: Batch): Run
  {
    Run(b.data,
        run.effects + [Wrote(i, b.added, b.skipped, b.data)] + (if i < iterations - 1 then [Slept(i)] else []),
        None)
  }

  function Iteration(harvest: (Table, nat) -> Harvest, iterations: int, run: Run, i: nat): Run
  {
    match harvest(run.data, i)
    case NoSubjects => run
    case HarvestFailed(f) => Run(run.data, run.effects, Some(f))
    case Merged(b) => Commit(run, i, iterations, b)
  }

  /** The first `k` iterations; after an exception nothing more happens. */
  function Runs(harvest: (Table, nat) -> Harvest, iterations: int, init: Table, k: nat): Run
  {
    if k == 0 then Run(init, [], None)
    else
      Step(harvest, iterations, Runs(harvest, iterations, init, k - 1), k - 1)
  }

  /** The next iteration, unless an exception already ended the run. */
  function Step(harvest: (Table, nat) -> Harvest, iterations: int, run: Run, i: nat): Run
  {
    if run.failure.Some? then run else Iteration(harvest, iterations, run, i)
  }

  /** An iteration without subjects changes nothing: no write and no sleep. Every
      iteration only adds effects: one that merged writes once and then sleeps exactly when
      it is not the last, any other adds none. */
  lemma IterationEffects(harvest: (Table, nat) -> Harvest, iterations: int, run: Run, i: nat)
    ensures harvest(run.data, i).NoSubjects? ==> Iteration(harvest, iterations, run, i) == run
    ensures var next := Iteration(harvest, iterations, run, i);
      && |run.effects| <= |next.effects| && next.effects[..|run.effects|] == run.effects
      && |next.effects| - |run.effects| ==
           if !harvest(run.data, i).Merged? then 0 else if i < iterations - 1 then 2 else 1
  {
  }

  /** An iteration has no subjects exactly when the recommendations it fetched hold none. */
  lemma HarvestNoSubjects(questions: Table, recs: nat -> Fetched, users: (nat, seq<string>) -> Fetched,
                          data: Table, i: nat)
    ensures HarvestOf(questions, recs, users, data, i) == NoSubjects <==>
      recs(i).Fetched? && RecommendedEntries(recs(i).body) == Some([])
  {
    var h := HarvestOf(questions, recs, users, data, i);
    if recs(i).Fetched? && RecommendedEntries(recs(i).body).Some? {
      var entries := RecommendedEntries(recs(i).body).value;
      if entries != [] {
        assert !h.NoSubjects? by {
          match IdStrings(Keys(entries))
          case None =>
          case Some(ids) =>
            match users(i, ids)
            case FetchFailed =>
            case Fetched(answer) =>
              match Iter(answer)
              case None =>
              case Some(profiles) =>
        }
      }
    }
  }

  /** One more iteration after `k` that did not raise. */
  lemma RunsNext(harvest: (Table, nat) -> Harvest, iterations: int, init: Table, k: nat)
    requires Runs(harvest, iterations, init, k).failure.None?
    ensures Runs(harvest, iterations, init, k + 1)
            == Iteration(harvest, iterations, Runs(harvest, iterations, init, k), k)
  {
  }

  /** `range(iterations)` has no elements for a negative count. */
  function Count(iterations: int): nat
  {
    if iterations > 0 then iterations else 0
  }

  /** `scrape_recommendations_multiple`: the output file is read, then the prompt mapping,
      then the iterations run. */
  function Scrape(existing: SavedFile, mapping: Option<Json>, iterations: int,
                  recs: nat -> Fetched, users: (nat, seq<string>) -> Fetched): Run
  {
    match Initial(existing)
    case None => Run([], [], Some(Malformed))
    case Some(init) =>
      match mapping
      case None => Run(init, [], Some(MappingMissing))
      case Some(questionData) =>
        match QuestionMap(questionData)
        case None => Run(init, [], Some(Malformed))
        case Some(questions) =>
          Runs(Harvester(questions, recs, users), iterations, init, Count(iterations))
  }

  /** The number of profiles the writes report as added. */
  function TotalAdded(effects: seq<Effect>): nat
  {
    if effects == [] then 0
    else
      var last := effects[|effects| - 1];
      TotalAdded(effects[..|effects| - 1]) + (if last.Wrote? then last.added else 0)
  }

  lemma TotalAddedCommit(effects: seq<Effect>, w: Effect, tail: seq<Effect>)
    requires w.Wrote? && (tail == [] || (|tail| == 1 && tail[0].Slept?))
    ensures TotalAdded(effects + [w] + tail) == TotalAdded(effects) + w.added
  {
    assert (effects + [w])[..|effects|] == effects;
    if tail != [] {
      assert (effects + [w] + tail)[..|effects| + 1] == effects + [w];
    } else {
      assert effects + [w] + tail == effects + [w];
    }
  }

  /** What every run keeps, up to any iteration: the data it started from leads the data
      unchanged, and the data has grown by exactly the profiles the writes report as
      added. */
  ghost predicate Grown(init: Table, run: Run)
  {
    && |init| <= |run.data| && run.data[..|init|] == init
    && |run.data| == |init| + TotalAdded(run.effects)
  }

  lemma CommitGrown(init: Table, run: Run, i: nat, iterations: int, b: Batch)
    requires Grown(init, run) && Grows(Batch(run.data, 0, 0), b)
    ensures Grown(init, Commit(run, i, iterations, b))
  {
    var tail := if i < iterations - 1 then [Slept(i)] else [];
    TotalAddedCommit(run.effects, Wrote(i, b.added, b.skipped, b.data), tail);
    PrefixTrans(init, run.data, b.data);
  }

  lemma StepGrown(harvest: (Table, nat) -> Harvest, iterations: int, init: Table,
                  run: Run, i: nat)
    requires harvest(run.data, i).Merged? ==> Grows(Batch(run.data, 0, 0), harvest(run.data, i).batch)
    requires Grown(init, run)
    ensures Grown(init, Step(harvest, iterations, run, i))
  {
    var h := harvest(run.data, i);
    if run.failure.None? && h.Merged? {
      CommitGrown(init, run, i, iterations, h.batch);
    }
  }

  lemma {:induction false} RunsGrown(harvest: (Table, nat) -> Harvest, iterations: int,
                                     init: Table, k: nat)
    requires Merging(harvest)
    ensures Grown(init, Runs(harvest, iterations, init, k))
  {
    if k == 0 {
      assert init[..|init|] == init;
    } else {
      var run := Runs(harvest, iterations, init, k - 1);
      RunsGrown(harvest, iterations, init, k - 1);
      StepGrown(harvest, iterations, init, run, k - 1);
      assert Runs(harvest, iterations, init, k) == Step(harvest, iterations, run, k - 1);
    }
  }

  /** Every record a run adds is saved under the subject it names. */
  lemma StepKeyed(harvest: (Table, nat) -> Harvest, iterations: int, init: Table,
                  run: Run, i: nat)
    requires harvest(run.data, i).Merged? ==>
      && Grows(Batch(run.data, 0, 0), harvest(run.data, i).batch)
      && SelfKeyed(harvest(run.data, i).batch.data, |run.data|)
    requires |init| <= |run.data| && SelfKeyed(run.data, |init|)
    ensures SelfKeyed(Step(harvest, iterations, run, i).data, |init|)
  {
    var h := harvest(run.data, i);
    if run.failure.None? && h.Merged? {
      SelfKeyedTrans(init, run.data, h.batch.data);
    }
  }

  lemma {:induction false} RunsKeyed(harvest: (Table, nat) -> Harvest, iterations: int,
                                     init: Table, k: nat)
    requires Merging(harvest) && MergingKeyed(harvest)
    ensures SelfKeyed(Runs(harvest, iterations, init, k).data, |init|)
  {
    if k > 0 {
      var run := Runs(harvest, iterations, init, k - 1);
      RunsKeyed(harvest, iterations, init, k - 1);
      RunsGrown(harvest, iterations, init, k - 1);
      StepKeyed(harvest, iterations, init, run, k - 1);
      assert Runs(harvest, iterations, init, k) == Step(harvest, iterations, run, k - 1);
    }
  }

  /** A run that starts from distinct keys keeps them distinct. */
  lemma {:induction false} RunsWf(harvest: (Table, nat) -> Harvest, iterations: int,
                                  init: Table, k: nat)
    requires MergingWf(harvest) && Wf(init)
    ensures Wf(Runs(harvest, iterations, init, k).data)
  {
    if k > 0 {
      RunsWf(harvest, iterations, init, k - 1);
    }
  }

  /** The order of effects: every effect belongs to an iteration already run, every sleep
      follows the write of its own iteration, and no iteration but one before the last
      sleeps. */
  ghost predicate Paced(iterations: int, k: nat, effects: seq<Effect>)
    decreases |effects|
  {
    if effects == [] then true
    else
      var front, last := effects[..|effects| - 1], effects[|effects| - 1];
      && Paced(iterations, k, front)
      && last.iteration < k
      && (last.Slept? ==>
            && last.iteration < iterations - 1
            && front != [] && front[|front| - 1].Wrote?
            && front[|front| - 1].iteration == last.iteration)
  }

  lemma {:induction false} PacedLater(iterations: int, k: nat, effects: seq<Effect>)
    requires Paced(iterations, k, effects)
    ensures Paced(iterations, k + 1, effects)
    decreases |effects|
  {
    if effects != [] {
      PacedLater(iterations, k, effects[..|effects| - 1]);
    }
  }

  lemma CommitPaced(run: Run, i: nat, iterations: int, b: Batch)
    requires Paced(iterations, i, run.effects)
    ensures Paced(iterations, i + 1, Commit(run, i, iterations, b).effects)
  {
    PacedLater(iterations, i, run.effects);
    var w := Wrote(i, b.added, b.skipped, b.data);
    assert (run.effects + [w])[..|run.effects|] == run.effects;
    if i < iterations - 1 {
      assert (run.effects + [w] + [Slept(i)])[..|run.effects| + 1] == run.effects + [w];
    } else {
      assert run.effects + [w] + [] == run.effects + [w];
    }
  }

  lemma StepPaced(harvest: (Table, nat) -> Harvest, iterations: int, run: Run, i: nat)
    requires Paced(iterations, i, run.effects)
    ensures Paced(iterations, i + 1, Step(harvest, iterations, run, i).effects)
  {
    var h := harvest(run.data, i);
    if run.failure.None? && h.Merged? {
      CommitPaced(run, i, iterations, h.batch);
    } else {
      PacedLater(iterations, i, run.effects);
    }
  }

  lemma {:induction false} RunsPaced(harvest: (Table, nat) -> Harvest, iterations: int,
                                     init: Table, k: nat)
    ensures Paced(iterations, k, Runs(harvest, iterations, init, k).effects)
  {
    if k > 0 {
      var run := Runs(harvest, iterations, init, k - 1);
      RunsPaced(harvest, iterations, init, k - 1);
      StepPaced(harvest, iterations, run, k - 1);
      assert Runs(harvest, iterations, init, k) == Step(harvest, iterations, run, k - 1);
    }
  }

  /** A sleep at position `t` of a paced run: a step before the last, right after the
      write of its own iteration. */
  lemma {:induction false} SleepFollowsWrite(iterations: int, k: nat, effects: seq<Effect>, t: nat)
    requires Paced(iterations, k, effects) && t < |effects| && effects[t].Slept?
    ensures effects[t].iteration < iterations - 1
    ensures 0 < t && effects[t - 1].Wrote? && effects[t - 1].iteration == effects[t].iteration
    decreases |effects|
  {
    var n := |effects| - 1;
    if t < n {
      var front := effects[..n];
      assert front[t] == effects[t];
      SleepFollowsWrite(iterations, k, front, t);
      assert front[t - 1] == effects[t - 1];
    }
  }

  /** The number of pauses in a run's effects. */
  function Sleeps(effects: seq<Effect>): nat
  {
    if effects == [] then 0
    else Sleeps(effects[..|effects| - 1]) + (if effects[|effects| - 1].Slept? then 1 else 0)
  }

  lemma SleepsCommit(effects: seq<Effect>, w: Effect, tail: seq<Effect>)
    requires w.Wrote? && (tail == [] || (|tail| == 1 && tail[0].Slept?))
    ensures Sleeps(effects + [w] + tail) == Sleeps(effects) + |tail|
  {
    assert (effects + [w])[..|effects|] == effects;
    if tail != [] {
      assert (effects + [w] + tail)[..|effects| + 1] == effects + [w];
    } else {
      assert effects + [w] + tail == effects + [w];
    }
  }

  /** An iteration pauses once when it merged and is not the last, and otherwise not. */
  lemma StepSleeps(harvest: (Table, nat) -> Harvest, iterations: int, run: Run, i: nat)
    ensures Sleeps(Step(harvest, iterations, run, i).effects) == Sleeps(run.effects) +
      if run.failure.None? && harvest(run.data, i).Merged? && i < iterations - 1 then 1 else 0
    ensures var n, n' := Sleeps(run.effects), Sleeps(Step(harvest, iterations, run, i).effects);
      n <= n' <= n + 1 && (n' == n + 1 ==> i < iterations - 1)
  {
    var h := harvest(run.data, i);
    if run.failure.None? && h.Merged? {
      var tail := if i < iterations - 1 then [Slept(i)] else [];
      SleepsCommit(run.effects, Wrote(i, h.batch.added, h.batch.skipped, h.batch.data), tail);
    }
  }

  /** The first `k` iterations pause at most once each, and never more than
      `iterations - 1` times in all. */
  lemma {:induction false} RunsSleeps(harvest: (Table, nat) -> Harvest, iterations: int,
                                      init: Table, k: nat)
    ensures var n := Sleeps(Runs(harvest, iterations, init, k).effects);
      n <= k && n <= Count(iterations - 1)
  {
    if k > 0 {
      var run := Runs(harvest, iterations, init, k - 1);
      RunsSleeps(harvest, iterations, init, k - 1);
      StepSleeps(harvest, iterations, run, k - 1);
      assert Runs(harvest, iterations, init, k) == Step(harvest, iterations, run, k - 1);
    }
  }

  /** Every snapshot written holds the starting data first, and is itself the leading part
      of the data at any later point: the file only ever gains profiles. */
  ghost predicate Snapshots(init: Table, run: Run)
  {
    SnapshotsLead(init, run.data, run.effects)
  }

  /** Every write among `effects` wrote data that starts as `init` and leads `data`. */
  ghost predicate SnapshotsLead(init: Table, data: Table, effects: seq<Effect>)
    decreases |effects|
  {
    if effects == [] then true
    else
      var front, last := effects[..|effects| - 1], effects[|effects| - 1];
      && SnapshotsLead(init, data, front)
      && (last.Wrote? ==> WroteLead(init, data, last.snapshot))
  }

  ghost predicate WroteLead(init: Table, data: Table, snap: Table)
  {
    |init| <= |snap| <= |data| && snap[..|init|] == init && data[..|snap|] == snap
  }

  lemma {:induction false} SnapshotsLater(init: Table, data: Table, data': Table,
                                          effects: seq<Effect>)
    requires SnapshotsLead(init, data, effects) && |data| <= |data'| && data'[..|data|] == data
    ensures SnapshotsLead(init, data', effects)
    decreases |effects|
  {
    if effects != [] {
      var last := effects[|effects| - 1];
      SnapshotsLater(init, data, data', effects[..|effects| - 1]);
      if last.Wrote? {
        PrefixTrans(last.snapshot, data, data');
      }
    }
  }

  /** The indexed form: the write at position `t` of the effects. */
  lemma {:induction false} SnapshotAt(init: Table, data: Table, effects: seq<Effect>, t: nat)
    requires SnapshotsLead(init, data, effects) && t < |effects| && effects[t].Wrote?
    ensures var snap := effects[t].snapshot;
      && |init| <= |snap| <= |data| && snap[..|init|] == init && data[..|snap|] == snap
    decreases |effects|
  {
    var n := |effects| - 1;
    if t < n {
      var front := effects[..n];
      assert front[t] == effects[t];
      SnapshotAt(init, data, front, t);
    }
  }

  lemma CommitSnapshots(init: Table, run: Run, i: nat, iterations: int, b: Batch)
    requires Snapshots(init, run) && Grown(init, run) && Grows(Batch(run.data, 0, 0), b)
    ensures Snapshots(init, Commit(run, i, iterations, b))
  {
    var w := Wrote(i, b.added, b.skipped, b.data);
    SnapshotsLater(init, run.data, b.data, run.effects);
    PrefixTrans(init, run.data, b.data);
    assert b.data[..|b.data|] == b.data;
    assert WroteLead(init, b.data, w.snapshot);
    assert (run.effects + [w])[..|run.effects|] == run.effects;
    assert SnapshotsLead(init, b.data, run.effects + [w]);
    if i < iterations - 1 {
      assert (run.effects + [w] + [Slept(i)])[..|run.effects| + 1] == run.effects + [w];
    } else {
      assert run.effects + [w] + [] == run.effects + [w];
    }
  }

  lemma StepSnapshots(harvest: (Table, nat) -> Harvest, iterations: int, init: Table,
                      run: Run, i: nat)
    requires harvest(run.data, i).Merged? ==> Grows(Batch(run.data, 0, 0), harvest(run.data, i).batch)
    requires Snapshots(init, run) && Grown(init, run)
    ensures Snapshots(init, Step(harvest, iterations, run, i))
  {
    var h := harvest(run.data, i);
    if run.failure.None? && h.Merged? {
      CommitSnapshots(init, run, i, iterations, h.batch);
    }
  }

  lemma {:induction false} RunsSnapshots(harvest: (Table, nat) -> Harvest, iterations: int,
                                         init: Table, k: nat)
    requires Merging(harvest)
    ensures Snapshots(init, Runs(harvest, iterations, init, k))
  {
    if k > 0 {
      RunsSnapshots(harvest, iterations, init, k - 1);
      RunsGrown(harvest, iterations, init, k - 1);
      StepSnapshots(harvest, iterations, init, Runs(harvest, iterations, init, k - 1), k - 1);
    }
  }

  /** An exception ends the run: nothing after it changes the data or the effects. */
  lemma {:induction false} RunsSticky(harvest: (Table, nat) -> Harvest, iterations: int,
                                      init: Table, k: nat, n: nat)
    requires k <= n && Runs(harvest, iterations, init, k).failure.Some?
    ensures Runs(harvest, iterations, init, n) == Runs(harvest, iterations, init, k)
    decreases n - k
  {
    if k < n {
      RunsSticky(harvest, iterations, init, k, n - 1);
    }
  }

  /** The whole run: the data only grows, by appending exactly the profiles reported as
      added, each under the subject its record names, and keeps its keys distinct; sleeps
      come only between iterations, each right after a write, at most `iterations - 1` of
      them; every snapshot written leads all later ones. */
  lemma ScrapeFacts(existing: SavedFile, mapping: Option<Json>, iterations: int,
                    recs: nat -> Fetched, users: (nat, seq<string>) -> Fetched)
    requires Initial(existing).Some?
    ensures var run := Scrape(existing, mapping, iterations, recs, users);
      var init := Initial(existing).value;
      && Grown(init, run) && SelfKeyed(run.data, |init|) && (Wf(init) ==> Wf(run.data))
      && Paced(iterations, Count(iterations), run.effects) && Snapshots(init, run)
      && Sleeps(run.effects) <= Count(iterations - 1)
  {
    var init := Initial(existing).value;
    if mapping.Some? && QuestionMap(mapping.value).Some? {
      var h := Harvester(QuestionMap(mapping.value).value, recs, users);
      HarvesterMerges(QuestionMap(mapping.value).value, recs, users);
      RunsGrown(h, iterations, init, Count(iterations));
      RunsKeyed(h, iterations, init, Count(iterations));
      if Wf(init) {
        RunsWf(h, iterations, init, Count(iterations));
      }
      RunsPaced(h, iterations, init, Count(iterations));
      RunsSnapshots(h, iterations, init, Count(iterations));
      RunsSleeps(h, iterations, init, Count(iterations));
    } else {
      assert init[..|init|] == init;
    }
  }

  /** Before any iteration: an output file that does not decode, or decodes to something
      other than a dict, ends the run with nothing written; a missing prompt mapping ends
      it with the data read and nothing written. */
  lemma ScrapeStart(existing: SavedFile, mapping: Option<Json>, iterations: int,
                    recs: nat -> Fetched, users: (nat, seq<string>) -> Fetched)
    ensures Initial(existing).None? <==>
      existing.Undecodable? || (existing.File? && !existing.content.Obj?)
    ensures existing.NoFile? ==> Initial(existing) == Some([])
    ensures Initial(existing).None? ==>
      Scrape(existing, mapping, iterations, recs, users) == Run([], [], Some(Malformed))
    ensures Initial(existing).Some? && mapping.None? ==>
      Scrape(existing, mapping, iterations, recs, users) == Run(Initial(existing).value, [], Some(MappingMissing))
  {
  }

  /** One iteration's fetches and merge. */
  method HarvestIteration(questions: Table, recs: nat -> Fetched,
                          users: (nat, seq<string>) -> Fetched, data: Table, i: nat)
    returns (h: Harvest)
    ensures h == HarvestOf(questions, recs, users, data, i)
  {
    var recommendations := recs(i);
    if recommendations.FetchFailed? {
      return HarvestFailed(ApiFailure);
    }
    var extracted := ExtractRecommended(recommendations.body);
    if extracted.None? {
      return HarvestFailed(Malformed);
    }
    if extracted.value.userIds == [] {
      return NoSubjects;
    }
    var ids := IdStrings(extracted.value.userIds);
    if ids.None? {
      return HarvestFailed(Malformed);
    }
    var answer := users(i, ids.value);
    if answer.FetchFailed? {
      return HarvestFailed(ApiFailure);
    }
    var profiles := Iter(answer.body);
    if profiles.None? {
      return HarvestFailed(Malformed);
    }
    var merged := MergeProfiles(questions, extracted.value.ratingTokens, data, profiles.value);
    if merged.None? {
      return HarvestFailed(Malformed);
    }
    h := Merged(merged.value);
  }

  /** `scrape_recommendations_multiple`, with the file reads, the SDK calls and the sleeps
      as parameters and effects. */
  method ScrapeRecommendationsMultiple(existing: SavedFile, mapping: Option<Json>, iterations: int,
                                       recs: nat -> Fetched, users: (nat, seq<string>) -> Fetched)
    returns (run: Run)
    ensures run == Scrape(existing, mapping, iterations, recs, users)
  {
    var init := Initial(existing);
    if init.None? {
      return Run([], [], Some(Malformed));
    }
    if mapping.None? {
      return Run(init.value, [], Some(MappingMissing));
    }
    var questions := QuestionMap(mapping.value);
    if questions.None? {
      return Run(init.value, [], Some(Malformed));
    }
    run := ScrapeIterations(questions.value, iterations, recs, users, init.value);
  }

  /** The `for i in range(iterations)` loop; its body is `ScrapeIteration`. */
  method ScrapeIterations(questions: Table, iterations: int, recs: nat -> Fetched,
                          users: (nat, seq<string>) -> Fetched, init: Table)
    returns (run: Run)
    ensures run == Runs(Harvester(questions, recs, users), iterations, init, Count(iterations))
  {
    ghost var harvest := Harvester(questions, recs, users);
    run := Run(init, [], None);
    var i: nat := 0;
    while i < iterations && run.failure.None?
      invariant i <= Count(iterations)
      invariant Runs(harvest, iterations, init, i) == run
    {
      RunsNext(harvest, iterations, init, i);
      run := ScrapeIteration(questions, iterations, recs, users, run, i);
      i := i + 1;
    }
    if run.failure.Some? {
      RunsSticky(harvest, iterations, init, i, Count(iterations));
    } else {
      assert i == Count(iterations);
    }
  }

  /** One pass of the loop body: fetch, merge, write the file, and sleep unless it is the
      last iteration. */
  method ScrapeIteration(questions: Table, iterations: int, recs: nat -> Fetched,
                         users: (nat, seq<string>) -> Fetched, run: Run, i: nat)
    returns (next: Run)
    ensures next == Iteration(Harvester(questions, recs, users), iterations, run, i)
  {
    var h := HarvestIteration(questions, recs, users, run.data, i);
    if h.NoSubjects? {
      return run;
    }
    if h.HarvestFailed? {
      return Run(run.data, run.effects, Some(h.failure));
    }
    var existingData := h.batch.data;
    var effects := run.effects + [Wrote(i, h.batch.added, h.batch.skipped, existingData)];
    if i < iterations - 1 {
      effects := effects + [Slept(i)];
    }
    next := Run(existingData, effects, None);
  }
}
