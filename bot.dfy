/** `main.py`: the command-line bot's credential check and its like helper. */
module Bot {
  import opened Wrappers
  import opened Dicts
  import opened Json
  import opened Exceptions
  import opened Client
  import opened SdkApi

  /** The environment variables the bot reads at start-up. */
  datatype Env = Env(bearerToken: Option<string>, sessionId: Option<string>, userId: Option<string>,
                     deviceId: Option<string>, installId: Option<string>)

  /** The three credentials `check_credentials` insists on, in the order it checks them. */
  datatype Credential = BearerToken | SessionId | UserId

  const TokenPlaceholder := "YOUR_BEARER_TOKEN_HERE"
  const SessionPlaceholder := "YOUR_SESSION_ID_HERE"
  const UserPlaceholder := "YOUR_USER_ID_HERE"

  /** A credential is filled in when it is set, non-empty and not the template's placeholder. */
  predicate Filled(v: Option<string>, placeholder: string)
  {
    Given(v) && v.value != placeholder
  }

  /** The credential `check_credentials` complains about: the first one, in the order token,
      session, user, that is not filled in. */
  function FirstUnset(env: Env): Option<Credential>
  {
    if !Filled(env.bearerToken, TokenPlaceholder) then Some(BearerToken)
    else if !Filled(env.sessionId, SessionPlaceholder) then Some(SessionId)
    else if !Filled(env.userId, UserPlaceholder) then Some(UserId)
    else None
  }

  /** `check_credentials()`. */
  function CheckCredentials(env: Env): bool
  {
    FirstUnset(env).None?
  }

  /** The check passes exactly when all three credentials are filled in, and whatever the
      device and install ids are. */
  lemma CheckCredentialsMeans(env: Env, deviceId: Option<string>, installId: Option<string>)
    ensures CheckCredentials(env) <==>
      Filled(env.bearerToken, TokenPlaceholder) && Filled(env.sessionId, SessionPlaceholder)
      && Filled(env.userId, UserPlaceholder)
    ensures CheckCredentials(env.(deviceId := deviceId, installId := installId)) == CheckCredentials(env)
  {
  }

  /** Only the first missing credential is reported: every credential before it is filled
      in, and it is not. */
  lemma FirstUnsetIsFirst(env: Env)
    ensures FirstUnset(env) == Some(BearerToken) <==> !Filled(env.bearerToken, TokenPlaceholder)
    ensures FirstUnset(env) == Some(SessionId) <==>
      Filled(env.bearerToken, TokenPlaceholder) && !Filled(env.sessionId, SessionPlaceholder)
    ensures FirstUnset(env) == Some(UserId) <==>
      Filled(env.bearerToken, TokenPlaceholder) && Filled(env.sessionId, SessionPlaceholder)
      && !Filled(env.userId, UserPlaceholder)
  {
  }

  /** The SDK call `like_profile` makes: a prompt like when `question_id` is truthy, else a
      photo like when `content_id` is, with the comment passed as it is; `None` when it has
      neither. */
  function LikeCall(subjectId: string, ratingToken: string, comment: Json,
                    contentId: Option<string>, questionId: Option<string>): Option<LikeArgs>
  {
    var base := PlainLike(subjectId, ratingToken);
    if Given(questionId) then
      Some(base.(prompt := Obj([("questionId", Str(questionId.value)), ("response", comment)])))
    else if Given(contentId) then
      Some(base.(photo := Obj([("contentId", Str(contentId.value)), ("comment", comment)])))
    else None
  }

  /** A question id wins over a content id; the comment becomes the prompt's `response` or
      the photo's `comment` unchanged; with neither id there is no call. */
  lemma LikeCallDispatch(subjectId: string, ratingToken: string, comment: Json,
                         contentId: Option<string>, questionId: Option<string>)
    ensures LikeCall(subjectId, ratingToken, comment, contentId, questionId).None? <==>
      !Given(questionId) && !Given(contentId)
    ensures Given(questionId) ==>
      var a := LikeCall(subjectId, ratingToken, comment, contentId, questionId).value;
      && a.photo == Null && a.comment.None?
      && At(a.prompt, "questionId") == Some(Str(questionId.value))
      && At(a.prompt, "response") == Some(comment)
    ensures !Given(questionId) && Given(contentId) ==>
      var a := LikeCall(subjectId, ratingToken, comment, contentId, questionId).value;
      && a.prompt == Null && a.comment.None?
      && At(a.photo, "contentId") == Some(Str(contentId.value))
      && At(a.photo, "comment") == Some(comment)
    ensures LikeCall(subjectId, ratingToken, comment, contentId, questionId).Some? ==>
      var a := LikeCall(subjectId, ratingToken, comment, contentId, questionId).value;
      a.subjectId == subjectId && a.ratingToken == ratingToken
  {
    if Given(questionId) {
      var pr := [("questionId", Str(questionId.value)), ("response", comment)];
      assert |pr[0].0| == 10 && |pr[1].0| == 8;
      GetFirstEntry(pr, 0);
      GetFirstEntry(pr, 1);
    } else if Given(contentId) {
      var ph := [("contentId", Str(contentId.value)), ("comment", comment)];
      assert |ph[0].0| == 9 && |ph[1].0| == 7;
      GetFirstEntry(ph, 0);
      GetFirstEntry(ph, 1);
    }
  }

  /** `like_profile`: returns the SDK's response body, raises the SDK's error, or returns
      `None` without any request when neither id is given. */
  method Like(c: HingeClient, subjectId: string, ratingToken: string, comment: Json,
              contentId: Option<string>, questionId: Option<string>,
              ratingId: string, created: string, send: Sent -> Transport, traceback: string)
    returns (response: Option<Json>, error: ApiError?)
    requires c.Valid()
    ensures LikeCall(subjectId, ratingToken, comment, contentId, questionId).None? ==>
      response.None? && error == null
    ensures LikeCall(subjectId, ratingToken, comment, contentId, questionId).Some? ==>
      var args := LikeCall(subjectId, ratingToken, comment, contentId, questionId).value;
      var sent := Sent("POST", RateUrl, MergeHeaders(JsonContentType, c.defaultHeaders), [],
                       Obj(LikePayload(args, c.sessionId, ratingId, created)), Null);
      match Classify(sent, send(sent), traceback)
      case Returned(r) => response == Some(r.body) && error == null
      case Raised(f) => response.None? && error != null && error.View() == f
  {
    var args := LikeCall(subjectId, ratingToken, comment, contentId, questionId);
    if args.None? {
      return None, null;
    }
    var r;
    r, error := LikeProfile(c, args.value, ratingId, created, send, traceback);
    response := if r.Some? then Some(r.value.body) else None;
  }
}
