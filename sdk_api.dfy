/** `HingeSDK/hingesdk/api.py`: the request bodies and query strings of the SDK's
    endpoint methods, and the methods that send them through the client. */
module SdkApi {
  import opened Wrappers
  import opened Dicts
  import opened Strings
  import opened Json
  import opened Exceptions
  import opened Client

  const RateUrl := BaseUrl + "/rate/v2/initiate"
  const MessageUrl := BaseUrl + "/message/send"
  const RecommendationsUrl := BaseUrl + "/rec/v2"
  const PublicUsersUrl := BaseUrl + "/user/v2/public"
  const PublicContentUrl := BaseUrl + "/content/v1/public"

  /** The extra header the rating and messaging endpoints send. */
  const JsonContentType: Headers := [("content-type", "application/json; charset=UTF-8")]

  /** The arguments of `like_profile`; an absent `photo` or `prompt` is `Null`. */
  datatype LikeArgs = LikeArgs(subjectId: string, ratingToken: string, comment: Option<string>,
                               photo: Json, prompt: Json, initiatedWith: string, origin: string,
                               hasPairing: bool)

  /** `like_profile(subject_id, rating_token, ...)` with every other argument at its default. */
  function PlainLike(subjectId: string, ratingToken: string): LikeArgs
  {
    LikeArgs(subjectId, ratingToken, None, Null, Null, "standard", "compatibles", false)
  }

  const LikeKeys: seq<string> :=
    ["ratingId", "ratingToken", "subjectId", "sessionId", "rating", "origin", "hasPairing", "created", "initiatedWith"]

  /** The always-present part of the rating body, position by position with `LikeKeys`.
      `ratingId` is the fresh UUID and `created` the UTC timestamp without its `Z`. */
  function LikeBase(args: LikeArgs, sessionId: Option<string>, ratingId: string, created: string): Dict<string, Json>
  {
    Zip(LikeKeys, LikeValues(args, sessionId, ratingId, created))
  }

  /** The values of the always-present part, in the order of `LikeKeys`. */
  function LikeValues(args: LikeArgs, sessionId: Option<string>, ratingId: string, created: string): seq<Json>
  {
    [ Str(ratingId), Str(args.ratingToken), Str(args.subjectId), OptStr(sessionId), Str("note"),
      Str(args.origin), Bool(args.hasPairing), Str(created + "Z"), Str(args.initiatedWith) ]
  }

  /** The `content` of a rating: the comment, photo and prompt that are truthy, in that order. */
  function LikeContent(args: LikeArgs): Dict<string, Json>
  {
    (if Given(args.comment) then [("comment", Str(args.comment.value))] else [])
    + (if Truthy(args.photo) then [("photo", args.photo)] else [])
    + (if Truthy(args.prompt) then [("prompt", args.prompt)] else [])
  }

  /** The rating body: the base part, followed by `content` when that is not empty. */
  function LikePayload(args: LikeArgs, sessionId: Option<string>, ratingId: string, created: string): Dict<string, Json>
  {
    LikeBase(args, sessionId, ratingId, created) + ContentEntry(LikeContent(args))
  }

  /** The `content` entry of a rating body, absent when the content is empty. */
  function ContentEntry(content: Dict<string, Json>): Dict<string, Json>
  {
    if content != [] then [("content", Obj(content))] else []
  }

  /** Builds the `content` dict the way `like_profile` does, one assignment per truthy argument. */
  method BuildLikeContent(args: LikeArgs) returns (content: Dict<string, Json>)
    ensures content == LikeContent(args)
  {
    var c1 := if Given(args.comment) then [("comment", Str(args.comment.value))] else [];
    var c2 := if Truthy(args.photo) then [("photo", args.photo)] else [];
    var c3 := if Truthy(args.prompt) then [("prompt", args.prompt)] else [];
    content := [];
    if Given(args.comment) {
      PutNew(content, "comment", Str(args.comment.value));
      content := Put(content, "comment", Str(args.comment.value));
    }
    assert content == c1;
    if Truthy(args.photo) {
      PutNew(content, "photo", args.photo);
      content := Put(content, "photo", args.photo);
    }
    assert content == c1 + c2;
    if Truthy(args.prompt) {
      KeysAppend(c1, c2);
      PutNew(content, "prompt", args.prompt);
      content := Put(content, "prompt", args.prompt);
    }
    assert content == c1 + c2 + c3;
  }

  /** Builds the rating body the way `like_profile` does: the base part, then `content`
      only when it is not empty. */
  method BuildLikePayload(args: LikeArgs, sessionId: Option<string>, ratingId: string, created: string)
    returns (payload: Dict<string, Json>)
    ensures payload == LikePayload(args, sessionId, ratingId, created)
  {
    payload := LikeBase(args, sessionId, ratingId, created);
    var content := BuildLikeContent(args);
    if content != [] {
      assert "content" !in Keys(payload) by {
        assert Keys(payload) == LikeKeys;
      }
      PutNew(payload, "content", Obj(content));
      payload := Put(payload, "content", Obj(content));
    }
  }

  /** The rating body always starts with the nine base keys in order; it rates with a note
      and names the rating, the subject, the subject's token and the client's session. */
  lemma LikePayloadBase(args: LikeArgs, sessionId: Option<string>, ratingId: string, created: string)
    ensures Get(LikePayload(args, sessionId, ratingId, created), "ratingId") == Some(Str(ratingId))
    ensures Get(LikePayload(args, sessionId, ratingId, created), "ratingToken") == Some(Str(args.ratingToken))
    ensures Get(LikePayload(args, sessionId, ratingId, created), "subjectId") == Some(Str(args.subjectId))
    ensures Get(LikePayload(args, sessionId, ratingId, created), "rating") == Some(Str("note"))
    ensures Get(LikePayload(args, sessionId, ratingId, created), "sessionId") == Some(OptStr(sessionId))
    ensures |LikeKeys| <= |LikePayload(args, sessionId, ratingId, created)|
    ensures Keys(LikePayload(args, sessionId, ratingId, created))[..|LikeKeys|] == LikeKeys
  {
    LikeKeysLead();
    KeysAppend(LikeBase(args, sessionId, ratingId, created), ContentEntry(LikeContent(args)));
    var vs, tail := LikeValues(args, sessionId, ratingId, created), ContentEntry(LikeContent(args));
    ZipTailLookup(LikeKeys, vs, tail, 0);
    ZipTailLookup(LikeKeys, vs, tail, 1);
    ZipTailLookup(LikeKeys, vs, tail, 2);
    ZipTailLookup(LikeKeys, vs, tail, 3);
    ZipTailLookup(LikeKeys, vs, tail, 4);
  }

  /** None of `ratingToken`, `subjectId`, `sessionId` and `rating` is preceded by an equal key. */
  lemma LikeKeysLead()
    ensures LikeKeys[0] == "ratingId" && LikeKeys[1] == "ratingToken" && LikeKeys[2] == "subjectId"
    ensures LikeKeys[3] == "sessionId" && LikeKeys[4] == "rating"
    ensures forall j :: 0 <= j < 1 ==> LikeKeys[j] != LikeKeys[1]
    ensures forall j :: 0 <= j < 2 ==> LikeKeys[j] != LikeKeys[2]
    ensures forall j :: 0 <= j < 3 ==> LikeKeys[j] != LikeKeys[3]
    ensures forall j :: 0 <= j < 4 ==> LikeKeys[j] != LikeKeys[4]
  {
    assert |LikeKeys[0]| == 8 && |LikeKeys[1]| == 11 && |LikeKeys[2]| == 9 && |LikeKeys[3]| == 9 && |LikeKeys[4]| == 6;
    assert LikeKeys[2][1] != LikeKeys[3][1];
  }

  /** A key of a zipped dict that no earlier key equals looks up its value, whatever
      entries follow. */
  lemma ZipTailLookup<K, V>(ks: seq<K>, vs: seq<V>, tail: Dict<K, V>, i: nat)
    requires |ks| == |vs| && i < |ks| && forall j :: 0 <= j < i ==> ks[j] != ks[i]
    ensures Get(Zip(ks, vs) + tail, ks[i]) == Some(vs[i])
  {
    ZipLookup(ks, vs, i);
    GetPrefix(Zip(ks, vs), tail, ks[i]);
  }

  /** The rating body has a `content` entry exactly when a comment, photo or prompt is truthy. */
  lemma LikePayloadContent(args: LikeArgs, sessionId: Option<string>, ratingId: string, created: string)
    ensures "content" in Keys(LikePayload(args, sessionId, ratingId, created))
            <==> Given(args.comment) || Truthy(args.photo) || Truthy(args.prompt)
  {
    var base := LikeBase(args, sessionId, ratingId, created);
    var content := LikeContent(args);
    var tail := ContentEntry(content);
    KeysAppend(base, tail);
    assert Keys(base) == LikeKeys && "content" !in LikeKeys;
    assert content != [] <==> Given(args.comment) || Truthy(args.photo) || Truthy(args.prompt);
  }

  /** The `content` entry has distinct keys, and has each of `comment`, `photo` and `prompt`
      exactly when that argument is truthy. */
  lemma LikeContentFacts(args: LikeArgs)
    ensures Wf(LikeContent(args))
    ensures "comment" in Keys(LikeContent(args)) <==> Given(args.comment)
    ensures "photo" in Keys(LikeContent(args)) <==> Truthy(args.photo)
    ensures "prompt" in Keys(LikeContent(args)) <==> Truthy(args.prompt)
  {
    var c := (if Given(args.comment) then [("comment", Str(args.comment.value))] else []);
    var ph := (if Truthy(args.photo) then [("photo", args.photo)] else []);
    var pr := (if Truthy(args.prompt) then [("prompt", args.prompt)] else []);
    OptionalKeys(c, ph, pr, "comment", "photo", "prompt");
  }

  /** Three dicts of at most one entry each, under three different keys, joined. */
  lemma OptionalKeys<K, V>(c: Dict<K, V>, ph: Dict<K, V>, pr: Dict<K, V>, k1: K, k2: K, k3: K)
    requires k1 != k2 && k1 != k3 && k2 != k3
    requires c == [] || (|c| == 1 && c[0].0 == k1)
    requires ph == [] || (|ph| == 1 && ph[0].0 == k2)
    requires pr == [] || (|pr| == 1 && pr[0].0 == k3)
    ensures Wf(c + ph + pr)
    ensures (k1 in Keys(c + ph + pr) <==> c != []) && (k2 in Keys(c + ph + pr) <==> ph != [])
    ensures k3 in Keys(c + ph + pr) <==> pr != []
  {
    var kc := if c == [] then [] else [k1];
    var kph := if ph == [] then [] else [k2];
    var kpr := if pr == [] then [] else [k3];
    assert Keys(c) == kc && Keys(ph) == kph && Keys(pr) == kpr;
    KeysAppend(c, ph);
    KeysAppend(c + ph, pr);
    assert Distinct(kc + kph) by {
      if ph != [] {
        DistinctSnoc(kc, k2);
      } else {
        assert kc + kph == kc;
      }
    }
    if pr != [] {
      DistinctSnoc(kc + kph, k3);
    } else {
      assert kc + kph + kpr == kc + kph;
    }
  }

  const MessageKeys: seq<string> :=
    ["subjectId", "matchMessage", "origin", "dedupId", "messageData", "messageType", "ays"]

  lemma MessageKeysDistinct()
    ensures Distinct(MessageKeys)
  {
  }

  /** The body of `send_message`, position by position with `MessageKeys`; `dedupId` is the
      fresh UUID. */
  function MessagePayload(subjectId: string, message: string, matchMessage: bool, origin: string,
                          messageType: string, ays: bool, dedupId: string): Dict<string, Json>
  {
    Zip(MessageKeys, MessageValues(subjectId, message, matchMessage, origin, messageType, ays, dedupId))
  }

  function MessageValues(subjectId: string, message: string, matchMessage: bool, origin: string,
                         messageType: string, ays: bool, dedupId: string): seq<Json>
  {
    [ Str(subjectId), Bool(matchMessage), Str(origin), Str(dedupId),
      Obj([("message", Str(message))]), Str(messageType), Bool(ays) ]
  }

  /** The message text is what `messageData.message` holds; the recipient, the flags, the
      origin, the message type and the dedup id are the arguments unchanged. */
  lemma MessagePayloadCarriesText(subjectId: string, message: string, matchMessage: bool, origin: string,
                                  messageType: string, ays: bool, dedupId: string)
    ensures var p := Obj(MessagePayload(subjectId, message, matchMessage, origin, messageType, ays, dedupId));
      && Keys(p.fields) == ["subjectId", "matchMessage", "origin", "dedupId", "messageData", "messageType", "ays"]
      && At(p, "subjectId") == Some(Str(subjectId))
      && At(p, "matchMessage") == Some(Bool(matchMessage))
      && At(p, "origin") == Some(Str(origin))
      && At(p, "dedupId") == Some(Str(dedupId))
      && At(p, "messageData") == Some(Obj([("message", Str(message))]))
      && At(Obj([("message", Str(message))]), "message") == Some(Str(message))
      && At(p, "messageType") == Some(Str(messageType))
      && At(p, "ays") == Some(Bool(ays))
  {
    var vs := MessageValues(subjectId, message, matchMessage, origin, messageType, ays, dedupId);
    MessageKeysDistinct();
    assert MessageKeys[0] == "subjectId" && MessageKeys[1] == "matchMessage" && MessageKeys[2] == "origin";
    assert MessageKeys[3] == "dedupId" && MessageKeys[4] == "messageData";
    assert MessageKeys[5] == "messageType" && MessageKeys[6] == "ays";
    ZipLookup(MessageKeys, vs, 0);
    ZipLookup(MessageKeys, vs, 1);
    ZipLookup(MessageKeys, vs, 2);
    ZipLookup(MessageKeys, vs, 3);
    ZipLookup(MessageKeys, vs, 4);
    ZipLookup(MessageKeys, vs, 5);
    ZipLookup(MessageKeys, vs, 6);
  }

  /** The body of `get_recommendations`: the client's user id and the two filters. */
  function RecommendationsPayload(userId: Option<string>, activeToday: bool, newHere: bool): Dict<string, Json>
  {
    [("playerId", OptStr(userId)), ("activeToday", Bool(activeToday)), ("newHere", Bool(newHere))]
  }

  /** The recommendations request names the player by the client's user id, and sends
      `null` when the client has none. */
  lemma RecommendationsPayloadPlayer(userId: Option<string>, activeToday: bool, newHere: bool)
    ensures var p := Obj(RecommendationsPayload(userId, activeToday, newHere));
      && At(p, "playerId") == Some(if userId.Some? then Str(userId.value) else Null)
      && At(p, "activeToday") == Some(Bool(activeToday))
      && At(p, "newHere") == Some(Bool(newHere))
  {
    var p := RecommendationsPayload(userId, activeToday, newHere);
    GetFirstEntry(p, 0);
    GetFirstEntry(p, 1);
    GetFirstEntry(p, 2);
  }

  /** `",".join(ids)`. */
  function JoinIds(ids: seq<string>): string
  {
    Join(",", ids)
  }

  /** The query string of `get_public_users` and `get_public_content`. */
  function PublicParams(ids: seq<string>): Dict<string, string>
  {
    [("ids", JoinIds(ids))]
  }

  /** The joined ids split back into the same ids, when there is at least one and none
      holds a comma; an empty list joins to the empty string. */
  lemma {:induction false} JoinIdsRoundTrip(ids: seq<string>)
    requires ids != [] && forall i :: 0 <= i < |ids| ==> ',' !in ids[i]
    ensures Split(JoinIds(ids), ',') == ids
    decreases |ids|
  {
    if |ids| == 1 {
      SplitWord(ids[0], ',');
    } else {
      JoinIdsRoundTrip(ids[1..]);
      assert JoinIds(ids) == ids[0] + [','] + JoinIds(ids[1..]);
      SplitAfterWord(ids[0], ',', JoinIds(ids[1..]));
      assert ids == [ids[0]] + ids[1..];
    }
  }

  /** No ids join to the empty string, which splits back into one empty id: the server
      receives `ids=` rather than an empty list. */
  lemma JoinIdsEmpty()
    ensures JoinIds([]) == "" && Split(JoinIds([]), ',') == [""]
  {
  }

  /** `like_profile`: sends the rating body with the JSON content type. */
  method LikeProfile(c: HingeClient, args: LikeArgs, ratingId: string, created: string,
                     send: Sent -> Transport, traceback: string)
    returns (response: Option<Response>, error: ApiError?)
    requires c.Valid()
    ensures var sent := Sent("POST", RateUrl, MergeHeaders(JsonContentType, c.defaultHeaders), [],
                             Obj(LikePayload(args, c.sessionId, ratingId, created)), Null);
      Reports(response, error, Classify(sent, send(sent), traceback))
    ensures error != null ==> fresh(error)
  {
    var payload := BuildLikePayload(args, c.sessionId, ratingId, created);
    response, error := c.Request("POST", RateUrl, JsonContentType, [], Obj(payload), Null, send, traceback);
  }

  /** `send_message`. */
  method SendMessage(c: HingeClient, subjectId: string, message: string, matchMessage: bool, origin: string,
                     messageType: string, ays: bool, dedupId: string, send: Sent -> Transport, traceback: string)
    returns (response: Option<Response>, error: ApiError?)
    requires c.Valid()
    ensures var sent := Sent("POST", MessageUrl, MergeHeaders(JsonContentType, c.defaultHeaders), [],
                             Obj(MessagePayload(subjectId, message, matchMessage, origin, messageType, ays, dedupId)), Null);
      Reports(response, error, Classify(sent, send(sent), traceback))
    ensures error != null ==> fresh(error)
  {
    var payload := MessagePayload(subjectId, message, matchMessage, origin, messageType, ays, dedupId);
    response, error := c.Request("POST", MessageUrl, JsonContentType, [], Obj(payload), Null, send, traceback);
  }

  /** `get_recommendations`: sends no extra headers. */
  method GetRecommendations(c: HingeClient, activeToday: bool, newHere: bool, send: Sent -> Transport, traceback: string)
    returns (response: Option<Response>, error: ApiError?)
    requires c.Valid()
    ensures var sent := Sent("POST", RecommendationsUrl, MergeHeaders([], c.defaultHeaders), [],
                             Obj(RecommendationsPayload(c.userId, activeToday, newHere)), Null);
      Reports(response, error, Classify(sent, send(sent), traceback))
    ensures error != null ==> fresh(error)
  {
    response, error := c.Request("POST", RecommendationsUrl, [], [],
                                 Obj(RecommendationsPayload(c.userId, activeToday, newHere)), Null, send, traceback);
  }

  /** `get_public_users` (and, with `PublicContentUrl`, `get_public_content`). */
  method GetPublic(c: HingeClient, url: string, ids: seq<string>, send: Sent -> Transport, traceback: string)
    returns (response: Option<Response>, error: ApiError?)
    requires c.Valid()
    ensures var sent := Sent("GET", url, MergeHeaders([], c.defaultHeaders), PublicParams(ids), Null, Null);
      Reports(response, error, Classify(sent, send(sent), traceback))
    ensures error != null ==> fresh(error)
  {
    response, error := c.Request("GET", url, [], PublicParams(ids), Null, Null, send, traceback);
  }
}
