# Hinge bot: a Dafny model of its profile harvesting, store and request core

The repository is a small unofficial client for the Hinge dating app, in three layers:

- An SDK (`HingeSDK/hingesdk`). It has an HTTP client holding the default headers, the
  endpoint methods that build request bodies and query strings, an exception hierarchy
  that renders itself as text, and tools. The tools read a recommendation listing, fetch
  the public profiles of its subjects and project each one into a saved record. They can
  repeat this over many iterations, appending only new subjects to a JSON file.
- A web backend (`api.py`). It enriches the first recommendation feed with public
  profiles. It likes a profile's photo or prompt, and normalises the "me" answer. It also
  keeps a local list of saved profiles that it appends to without duplicates, lists and
  clears.
- A command-line bot (`main.py`). It checks the three credentials it needs and dispatches
  a like.

This project models that core in Dafny and proves what the code promises about it.

Python values are the `Json` datatype (`json.dfy`). A Python dict is an insertion-ordered
association list (`dicts.dfy`): assigning to a present key keeps its position, and
assigning to an absent key appends it. Every Python operation that can raise — `d[k]`,
`.get` on a non-dict, iterating a number, `x[0]`, an unhashable key — returns `Option`.
`None` stands for "raised here", so the error paths of the modelled code are cases of
the model, not preconditions; the few that are not are listed under "Left out". HTTP
exchanges, file contents, fresh UUIDs and timestamps are
parameters:

- a `Sent -> Transport` oracle for the client;
- `Fetched` answers for the tools and the backend;
- `StoreFile` and `SavedFile` for the JSON files.

The code's loops are `method`s with invariants, proved equal to the functions that
specify them: the scrape iterations, the profile merge, the prompt and output builders,
the `enriched` list and the details loop of `__str__`. The `content`, payload and header
builders have no loop in the source; they are loop-free methods proved equal to their
functions. The profile store and the error objects are classes whose mutators carry
`modifies` clauses. The client is a class whose constructor fixes its default headers;
sending a request changes nothing in it.

The scrape run is a trace of effects. Each iteration either writes the file, with its
counts and the data written, or ends in an exception. A sleep follows a write unless it
was the last iteration. The lemmas say:

- the data only grows, by appending exactly the profiles reported as added;
- every appended record is keyed by the subject it names;
- keys stay distinct;
- sleeps never follow the last iteration, and there are at most `iterations - 1` of them;
- every snapshot written leads every later one.

One behaviour of the backend is modelled as the code has it. When `like_profile` has
neither a question id nor a content id, the 400 it raises is caught by its own handler,
so the client receives a 500 (`Backend.Like`). Likewise, no ids give the query `ids=`
(`SdkApi.JoinIdsEmpty`), and the same new profile posted twice in one `save_profiles` call
is saved twice (`Backend.SaveKeepsRepeats`).

## Model

| member | source | states |
|---|---|---|
| Tools.QuestionMapLookup | HingeSDK/hingesdk/tools.py:162-165 | every prompt of the mapping file maps its id to its text; among prompts sharing an id the last wins |
| Tools.QuestionMapKeys | HingeSDK/hingesdk/tools.py:162-165 | the question map has no key that no prompt has |
| Tools.QuestionMap | HingeSDK/hingesdk/tools.py:162-165 | the `question_map` comprehension over `text.prompts`; `None` where it raises. Specified by QuestionMapLookup and QuestionMapKeys |
| Tools.RecommendedEntries | HingeSDK/hingesdk/tools.py:186-190 | the subjects of every feed as (id, token) pairs in listing order; `None` where reading a feed or a subject raises. Specified by ExtractRecommended, ExtractedTokens and ExtractedTokensOnlyListed |
| Tools.StandoutEntries | HingeSDK/hingesdk/tools.py:175-178 | the same pairs over `free + paid`. Specified by ExtractStandouts |
| Tools.ExtractRecommended | HingeSDK/hingesdk/tools.py:186-190 | the nested feed/subject loop succeeds exactly when every feed and subject can be read; it then yields every subject id in listing order, plus the token table of those entries |
| Tools.ExtendWithSubjects | HingeSDK/hingesdk/tools.py:187-190 | the inner loop over one feed's subjects extends ids and tokens built so far by exactly that feed's entries, or fails when a subject lacks `subjectId`/`ratingToken` |
| Tools.ExtractStandouts | HingeSDK/hingesdk/tools.py:175-178 | the same extraction over `free + paid` standouts |
| Tools.ExtractedTokens | HingeSDK/hingesdk/tools.py:186-190 | each listed id is kept in order, and its token is the one from its last listing (a subject repeated across feeds: last token wins) |
| Tools.ExtractedTokensOnlyListed | HingeSDK/hingesdk/tools.py:186-190 | the token table holds no id that was not listed |
| Tools.ExtractedSnoc | HingeSDK/hingesdk/tools.py:188-190 | one subject appends its id to `user_ids` and assigns its token in `rating_tokens` |
| Tools.IdStrings | HingeSDK/hingesdk/api.py:189 | `",".join` accepts the ids exactly when all are strings, and then joins those strings in order |
| Tools.PromptOf | HingeSDK/hingesdk/tools.py:214-229 | one answer's prompt record; `None` where it raises. Specified by PromptHead, PromptText, PromptVoice and PromptFails |
| Tools.PromptHead | HingeSDK/hingesdk/tools.py:215-219 | a prompt record names the mapped question text ("Unknown Question" for an unknown id) and the question id; its type defaults to "text" |
| Tools.PromptText | HingeSDK/hingesdk/tools.py:227-229 | a non-voice record has exactly the keys question, question_id, type, response; its response defaults to "" |
| Tools.PromptVoice | HingeSDK/hingesdk/tools.py:221-226 | a voice record takes its response from `transcription.transcript` (default "") and adds `voice_url` and `waveform`, each None when absent |
| Tools.VoicePromptFields | HingeSDK/hingesdk/tools.py:224-226 | the voice record carries the transcript, the url and the waveform it is given |
| Tools.PromptFails | HingeSDK/hingesdk/tools.py:214-229 | projecting an answer raises exactly when it has no hashable `questionId`, or it is a voice answer whose transcription is not a dict |
| Tools.ImageOf | HingeSDK/hingesdk/tools.py:234-241 | one photo's image record; `None` without `url`. Specified by ImageFacts |
| Tools.ImageFacts | HingeSDK/hingesdk/tools.py:234-241 | an image needs the photo's `url`; its `cdn_id` and `content_id` are the photo's, or None when absent |
| Tools.InteractionFacts | HingeSDK/hingesdk/tools.py:248-252 | `interaction_data` holds the subject id, the subject's rating token or None, and the source |
| Tools.RecordFields | HingeSDK/hingesdk/tools.py:244-253 | a record has exactly the four keys profile_info, prompts, images, interaction_data, holding the given parts |
| Tools.ProfileRecord | HingeSDK/hingesdk/tools.py:204-253 | the record saved for one profile; `None` where building it raises. Specified by RecordFacts, RecordFields and BuildRecord |
| Tools.RecordFacts | HingeSDK/hingesdk/tools.py:201-253 | a record names its subject and source; it carries the subject's token; it has one prompt per answer and one image per photo, in their order; `profile_info` is every profile field except answers and photos |
| Tools.CollectPrompts | HingeSDK/hingesdk/tools.py:213-231 | the prompt loop builds one record per answer, and raises when any answer does not project |
| Tools.BuildRecord | HingeSDK/hingesdk/tools.py:204-253 | builds the record that `ProfileRecord` specifies |
| Tools.ProfileEntry | HingeSDK/hingesdk/tools.py:203-253 | one pass of the output loop as (key, record), `None` where it raises. Specified by ProfileEntryFacts |
| Tools.ProfileEntryFacts | HingeSDK/hingesdk/tools.py:203-253 | an entry exists exactly when the profile has an `identityId` and its `profile` is a dict that projects into a record (no `identityId` means none); the entry is keyed by that id, and the record names it as its subject and names the listing's source |
| Tools.OutputData | HingeSDK/hingesdk/tools.py:201-253 | the `output_data` dict: every profile's entry, a later profile of a subject overwriting an earlier one. Specified by OutputFacts, OutputLast and BuildOutput |
| Tools.OutputFacts | HingeSDK/hingesdk/tools.py:201-253 | the output file's dict has distinct keys; each key is some profile's subject, and its record names that subject and the listing's source |
| Tools.OutputLast | HingeSDK/hingesdk/tools.py:201-253 | a subject's key holds the record of the subject's last profile |
| Tools.BuildOutput | HingeSDK/hingesdk/tools.py:201-253 | the output loop builds the dict that `OutputData` specifies |
| Tools.BuildEntry | HingeSDK/hingesdk/tools.py:203-253 | one pass of the output loop gives the subject's id and record |
| Tools.ProfileJsonOutcome | HingeSDK/hingesdk/tools.py:151-269 | `create_profile_json`'s ending: written data, the early return, or the failure raised. Specified by NoUsersExactly and CreateProfileJson |
| Tools.NoUsersExactly | HingeSDK/hingesdk/tools.py:192-194 | `create_profile_json` returns without writing exactly when the listing it read had no subjects |
| Tools.CreateProfileJson | HingeSDK/hingesdk/tools.py:151-269 | the whole function: the missing mapping file, the listing, the early return, the profile fetch and the written output, each as its outcome |
| Tools.MergeStep | HingeSDK/hingesdk/tools.py:337-362 | one profile of the iteration's merge, with its counters; `None` where it raises. Specified by MergeStepFacts, MergeSkipsSaved, MergeStepRepeat and MergeOne |
| Tools.Merge | HingeSDK/hingesdk/tools.py:334-362 | the iteration's profile loop as a fold of `MergeStep`. Specified by FoldMergeFacts, MergeFacts and MergeProfiles |
| Tools.MergeStepFacts | HingeSDK/hingesdk/tools.py:336-362 | one profile: a saved subject leaves the data alone and counts as skipped (never overwritten); a new one is appended as its projection tagged "recommendations" and counts as added |
| Tools.MergeSkipsSaved | HingeSDK/hingesdk/tools.py:337-340 | a subject already saved only raises the skip count, even when the rest of its profile could not be projected |
| Tools.MergeStepRepeat | HingeSDK/hingesdk/tools.py:336-342 | a profile served a second time, in the same iteration or a later one, counts as a duplicate |
| Tools.AppendFacts | HingeSDK/hingesdk/tools.py:357-362 | saving a record under a new key it names keeps keys distinct, appends, and counts one added |
| Tools.FoldMergeFacts | HingeSDK/hingesdk/tools.py:336-362 | over any run of profiles, added plus skipped grows by the number of profiles, and the batch only appends self-keyed records |
| Tools.MergeFacts | HingeSDK/hingesdk/tools.py:334-365 | per iteration, `new_profiles + duplicate_profiles` is the number of profiles; the data grows by exactly `new_profiles`; the old data is kept as a prefix; appended records are keyed by their subject; keys stay distinct |
| Tools.MergeProfiles | HingeSDK/hingesdk/tools.py:334-362 | the profile loop with its counters computes `Merge` |
| Tools.MergeOne | HingeSDK/hingesdk/tools.py:337-362 | one pass of the profile loop computes `MergeStep` |
| Tools.HarvestOf | HingeSDK/hingesdk/tools.py:313-362 | one iteration's fetches and merge: no subjects, a failure, or the merged batch. Specified by HarvestExtends, HarvesterMerges, HarvestNoSubjects and HarvestIteration |
| Tools.Iteration | HingeSDK/hingesdk/tools.py:310-375 | one iteration's effect on the run: nothing, the exception, or the write and the sleep. Specified by IterationEffects and ScrapeIteration |
| Tools.Runs | HingeSDK/hingesdk/tools.py:309-375 | the first `k` iterations, stopping at an exception. Specified by RunsGrown, RunsKeyed, RunsWf, RunsPaced, RunsSleeps, RunsSnapshots, RunsSticky and ScrapeIterations |
| Tools.Scrape | HingeSDK/hingesdk/tools.py:290-375 | the whole scrape: the existing file, the mapping, then the iterations. Specified by ScrapeStart, ScrapeFacts and ScrapeRecommendationsMultiple |
| Tools.HarvestExtends | HingeSDK/hingesdk/tools.py:313-362 | an iteration's fetch-and-merge only extends the data it starts from |
| Tools.HarvesterMerges | HingeSDK/hingesdk/tools.py:313-362 | every iteration's merge appends, keys records by their subject, and keeps keys distinct |
| Tools.HarvestNoSubjects | HingeSDK/hingesdk/tools.py:319-327 | an iteration has no subjects exactly when the fetched recommendations hold none |
| Tools.IterationEffects | HingeSDK/hingesdk/tools.py:325-375 | an iteration without subjects writes nothing and does not sleep; a merged one writes once and sleeps exactly when it is not the last; effects are only appended |
| Tools.RunsNext | HingeSDK/hingesdk/tools.py:309 | a run that has not raised goes on with the next iteration |
| Tools.RunsGrown | HingeSDK/hingesdk/tools.py:309-369 | after any number of iterations, the starting data leads the data and the data has grown by exactly the profiles the writes report as added |
| Tools.RunsKeyed | HingeSDK/hingesdk/tools.py:309-362 | every record a run adds is saved under the subject it names |
| Tools.RunsWf | HingeSDK/hingesdk/tools.py:309-362 | a run that starts from distinct keys keeps them distinct |
| Tools.RunsPaced | HingeSDK/hingesdk/tools.py:309-375 | every effect belongs to an iteration already run; each sleep follows the write of its own iteration; no sleep follows the last iteration |
| Tools.Sleeps | HingeSDK/hingesdk/tools.py:371-375 | the number of pauses in a run's effects. Specified by StepSleeps and RunsSleeps |
| Tools.StepSleeps | HingeSDK/hingesdk/tools.py:371-375 | an iteration pauses once exactly when it merged, did not follow an exception and is not the last |
| Tools.RunsSleeps | HingeSDK/hingesdk/tools.py:309-375 | the first `k` iterations pause at most `k` times, and at most `iterations - 1` times in all |
| Tools.SleepFollowsWrite | HingeSDK/hingesdk/tools.py:368-375 | a sleep comes right after its iteration's write, never in the last iteration |
| Tools.SnapshotAt | HingeSDK/hingesdk/tools.py:368-369 | every written snapshot starts with the initial data, and leads the data at any later point |
| Tools.RunsSnapshots | HingeSDK/hingesdk/tools.py:368-369 | the file only ever gains profiles: each write leads all later ones |
| Tools.RunsSticky | HingeSDK/hingesdk/tools.py:379-385 | after an exception, nothing more changes the data or the effects |
| Tools.ScrapeFacts | HingeSDK/hingesdk/tools.py:290-375 | the whole scrape from the existing file: growth by the added counts, self-keyed records, distinct keys, sleeps only between iterations and at most `iterations - 1` of them, monotone snapshots |
| Tools.ScrapeStart | HingeSDK/hingesdk/tools.py:290-307 | an output file that does not decode, or decodes to no dict, ends the run before any iteration with nothing written; no file starts from `{}`; a missing mapping ends it with nothing written |
| Tools.HarvestIteration | HingeSDK/hingesdk/tools.py:313-362 | one iteration's fetches and merge compute `HarvestOf` |
| Tools.ScrapeIteration | HingeSDK/hingesdk/tools.py:310-375 | one pass of the iteration loop: fetch, merge, write, and sleep unless it is the last |
| Tools.ScrapeIterations | HingeSDK/hingesdk/tools.py:309-375 | the `for i in range(iterations)` loop computes `Runs` over `Count(iterations)` iterations |
| Tools.ScrapeRecommendationsMultiple | HingeSDK/hingesdk/tools.py:290-385 | the whole method: the existing file or `{}`, the mapping file, then the iterations |
| Backend.SaveProfiles | api.py:283-306 | `save_profiles` from the stored file: the saved list and the report, `None` where it raises. Specified by SaveFromNothing and the lemmas below |
| Backend.SaveInto | api.py:291-306 | the same from the value read. Specified by SaveProfilesFails, SaveProfilesShape, SavedIds, SaveProfilesIdempotent and SaveKeepsRepeats |
| Backend.FreshMembers | api.py:292-293 | a posted profile is kept exactly when its id is not stored; no more are kept than posted |
| Backend.FreshAppend | api.py:293 | the kept profiles keep the posted order |
| Backend.FreshNone | api.py:293 | nothing is kept when every id is already stored |
| Backend.SaveProfilesFails | api.py:283-296 | `save_profiles` raises exactly when the stored value is not a list, a stored or posted profile is not a dict with a hashable `subjectId`, or the posted value is not iterable |
| Backend.SaveProfilesShape | api.py:292-306 | the stored list stays a prefix; the appended ones are exactly the posted profiles whose id was not stored, in posted order and with repeats kept (`Fresh`, the filter of `new_profiles`); `saved + skipped` equals the number posted; `total` equals the stored count plus `saved` |
| Backend.SavedIds | api.py:292-296 | after a save every posted id is among the saved list's ids |
| Backend.AppendedIds | api.py:292-296 | appending the kept profiles to a keyed list keeps it keyed, and holds every posted id |
| Backend.SaveProfilesIdempotent | api.py:292-306 | posting the same profiles again saves none, skips all, and leaves the list and `total` unchanged |
| Backend.SaveFromNothing | api.py:283-289 | a missing or unreadable store saves like an empty list |
| Backend.SaveKeepsRepeats | api.py:292-293 | the same new profile posted twice in one call is saved twice: repeats are not removed against each other |
| Backend.SavedListing | api.py:309-325 | the listing of the stored profiles with their count, or a failure. Specified by ListingAfterSave |
| Backend.ListingAfterSave | api.py:309-325 | after a save, listing shows the combined list with `total` entries; a missing store lists none with count 0 |
| Backend.ProfileStore.constructor | api.py:280 | the store starts from the given file state |
| Backend.ProfileStore.Save | api.py:272-306 | writes the combined list and answers the counts, or raises and leaves the file alone |
| Backend.ProfileStore.Clear | api.py:328-337 | after clearing, the file is missing |
| Backend.Recommendations | api.py:64-114 | the endpoint from the SDK's answer: the page, or `None` for the 500. Specified by RecommendationsFails, RecommendationsEmpty, RecommendationsFirstFeed, EnrichedPageFacts and GetRecommendations |
| Backend.RecommendationsFails | api.py:67-78 | a failing SDK call, an answer that is not a dict, or a first feed that is not a dict gives the 500 |
| Backend.RecommendationsEmpty | api.py:72-78 | no feeds, or a first feed without subjects, gives count 0 and no subjects |
| Backend.RecommendationsFirstFeed | api.py:76 | only the first feed is read: feeds after it make no difference |
| Backend.EnrichedPageFacts | api.py:81-112 | the count is the number of subjects, enriched or not; when profiles were fetched and indexed, one entry per subject in order, each with all its fields plus `profile`; otherwise the raw subjects |
| Backend.UsersIndex | api.py:83-89 | the `users` dict built from the public-users answer. Specified by UsersIndexLast and UsersIndexAbsent |
| Backend.UsersIndexLast | api.py:85-89 | a user whose key no later user repeats is what the index gives for that key (`identityId`, or `identityId or id` for the `users` shape) |
| Backend.UsersIndexAbsent | api.py:85-94 | a key no user has is absent, so its subject gets `{}` |
| Backend.Enrich | api.py:92-98 | the `enriched` loop builds `EnrichAll`, one entry per subject in order |
| Backend.EnrichAllSnoc | api.py:93-98 | one more subject appends its enriched entry |
| Backend.GetRecommendations | api.py:64-114 | the endpoint, from the SDK call's answer or failure and with its loop, computes `Recommendations` (`None` for the 500) |
| Backend.MyProfile | api.py:183-193 | `get_my_profile`'s normalisation of the public-users answer; `None` where it raises. Specified by MyProfileCases and MyProfileFails |
| Backend.MyProfileCases | api.py:183-191 | a non-empty list gives its first element; a dict gives the first of `users` (else of `profiles`), or itself when that list is empty; anything else gives `{}` |
| Backend.MyProfileFails | api.py:183-193 | normalisation raises only on a dict whose chosen list is truthy but cannot be indexed by 0 |
| Backend.LikeRequestArgs | api.py:138-159 | the SDK call `like_profile` makes, or `None` without ids. Specified by LikeRequestDispatch and Like |
| Backend.LikeRequestDispatch | api.py:138-159 | a question id wins over a content id; the comment (or "") becomes the prompt's `response` or the photo's `comment`; with neither id there is no call |
| Backend.Like | api.py:132-163 | answers the SDK's response; any SDK error, and the missing-id case, become status 500 |
| Bot.CheckCredentials | main.py:31-43 | `check_credentials`. Specified by CheckCredentialsMeans and FirstUnsetIsFirst |
| Bot.CheckCredentialsMeans | main.py:31-43 | the check passes exactly when token, session and user id are each set, non-empty and not the placeholder, whatever the device and install ids |
| Bot.FirstUnsetIsFirst | main.py:33-41 | checks run in the order token, session, user; only the first failing one is reported |
| Bot.LikeCall | main.py:93-115 | the SDK call the bot's like makes, or none. Specified by LikeCallDispatch and Like |
| Bot.LikeCallDispatch | main.py:93-115 | a question id wins over a content id; the comment becomes `prompt.response` or `photo.comment` unchanged; with neither there is no call |
| Bot.Like | main.py:80-118 | returns the SDK's body or its error; with neither id it returns None and sends nothing |
| SdkApi.BuildLikeContent | HingeSDK/hingesdk/api.py:57-63 | the `content` dict gets comment, photo and prompt, each only when truthy |
| SdkApi.BuildLikePayload | HingeSDK/hingesdk/api.py:44-66 | the rating body is the nine base entries, then `content` only when it is not empty |
| SdkApi.LikePayload | HingeSDK/hingesdk/api.py:44-66 | the `like_profile` rating body. Specified by LikePayloadBase, LikePayloadContent and BuildLikePayload |
| SdkApi.LikePayloadBase | HingeSDK/hingesdk/api.py:44-54 | the body starts with the nine base keys in order; `rating` is "note"; `ratingId`, `ratingToken`, `subjectId` and `sessionId` are the given ones |
| SdkApi.LikePayloadContent | HingeSDK/hingesdk/api.py:57-66 | the body has `content` exactly when comment, photo or prompt is truthy |
| SdkApi.LikeContentFacts | HingeSDK/hingesdk/api.py:57-63 | `content` has distinct keys, and has each of comment, photo and prompt exactly when that argument is truthy |
| SdkApi.MessagePayload | HingeSDK/hingesdk/api.py:105-115 | the `send_message` body. Specified by MessagePayloadCarriesText and SendMessage |
| SdkApi.MessagePayloadCarriesText | HingeSDK/hingesdk/api.py:105-115 | the message body nests the text as `messageData.message`; every other argument is copied unchanged under its key |
| SdkApi.RecommendationsPayloadPlayer | HingeSDK/hingesdk/api.py:170-174 | `playerId` is the client's user id (null when it has none); the two filters are the arguments |
| SdkApi.JoinIdsRoundTrip | HingeSDK/hingesdk/api.py:189 | the `ids` parameter splits back into the given ids when there is at least one and none holds a comma |
| SdkApi.JoinIdsEmpty | HingeSDK/hingesdk/api.py:189 | no ids give `ids=`, which reads back as one empty id |
| SdkApi.LikeProfile | HingeSDK/hingesdk/api.py:38-73 | sends the rating body by POST to `/rate/v2/initiate` with the JSON content type, through `_request` |
| SdkApi.SendMessage | HingeSDK/hingesdk/api.py:100-123 | sends the message body by POST to `/message/send` with the JSON content type |
| SdkApi.GetRecommendations | HingeSDK/hingesdk/api.py:169-176 | sends the recommendations body by POST to `/rec/v2`, adding no extra headers |
| SdkApi.GetPublic | HingeSDK/hingesdk/api.py:188-206 | `get_public_users` and `get_public_content` send a GET with the joined `ids` |
| Client.OrEmpty | HingeSDK/hingesdk/client.py:53 | `x or ""`: the value when given, else "" |
| Client.IosHeadersLookup | HingeSDK/hingesdk/client.py:53-58 | the iOS set carries the device and install ids, "" when absent |
| Client.AndroidHeadersLookup | HingeSDK/hingesdk/client.py:71-72 | the Android set carries the device and install ids, "" when absent |
| Client.PlatformHeadersWf | HingeSDK/hingesdk/client.py:41-79 | both platform header sets have distinct names |
| Client.PlatformHeadersLack | HingeSDK/hingesdk/client.py:41-79 | neither platform set holds `Authorization` or `X-Session-Id` |
| Client.WithCredentialsFacts | HingeSDK/hingesdk/client.py:81-84 | the platform headers stay first and in order; `Authorization: Bearer <token>` is present exactly when the token is truthy; `X-Session-Id` exactly when the session is |
| Client.WithCredentialsKeeps | HingeSDK/hingesdk/client.py:81-84 | adding the credentials changes no other header |
| Client.DefaultHeaders | HingeSDK/hingesdk/client.py:41-84 | the client's default headers. Specified by DefaultHeadersCredentials, DefaultHeadersDevice and BuildDefaultHeaders |
| Client.DefaultHeadersCredentials | HingeSDK/hingesdk/client.py:41-84 | the default headers have distinct names, start with the platform set ("iOS" selects iOS, anything else Android), and carry the credentials exactly when given |
| Client.DefaultHeadersDevice | HingeSDK/hingesdk/client.py:53-72 | the defaults carry the device and install ids under the platform's spelling of their names |
| Client.BuildDefaultHeaders | HingeSDK/hingesdk/client.py:41-84 | the constructor's assembly builds `DefaultHeaders` |
| Client.HingeClient.constructor | HingeSDK/hingesdk/client.py:36-84 | the client keeps the token, session and user id, and its default headers are `DefaultHeaders` |
| Client.MergeHeaders | HingeSDK/hingesdk/client.py:88-90 | on a shared name the default wins, otherwise the caller's header is kept; the caller's headers stay first in order |
| Client.Redact | HingeSDK/hingesdk/client.py:109-112 | the reported headers are exactly those whose lowercase name is not `authorization`, with their values unchanged |
| Client.HeadersJson | HingeSDK/hingesdk/client.py:109-112 | the reported headers keep their names in order, each holding the value it was sent with |
| Client.HeadersJsonGet | HingeSDK/hingesdk/client.py:109-112 | looking a name up in the reported headers gives the value sent under it, and nothing for a name not sent |
| Client.HttpErrorDetails | HingeSDK/hingesdk/client.py:102-113 | the details of an HTTP error. Specified by HttpErrorDetailsFacts |
| Client.HttpErrorDetailsFacts | HingeSDK/hingesdk/client.py:102-113 | an HTTP error's details are status_code, response_body, endpoint, request_headers (redacted), request_body (`json or data`), in that order |
| Client.Classify | HingeSDK/hingesdk/client.py:97-123 | what `_request` does with the transport's outcome: return the response or raise a named error. Specified by ClassifyReturns, ClassifyHttpErrors, ClassifyBroken and HingeClient.Request |
| Client.ClassifyReturns | HingeSDK/hingesdk/client.py:97-100 | `_request` returns exactly the responses outside the 4xx/5xx ranges, unchanged |
| Client.ClassifyHttpErrors | HingeSDK/hingesdk/client.py:101-117 | 401 is an auth error with the fixed message; other error statuses are request errors carrying `str(e)`; all keep the traceback and details |
| Client.ClassifyBroken | HingeSDK/hingesdk/client.py:118-123 | a transport failure is a base API error naming the exception type, the URL and the method |
| Client.HingeClient.Request | HingeSDK/hingesdk/client.py:86-123 | sends the merged headers and returns the response or raises the error that `Classify` names |
| Exceptions.DetailsOrEmpty | HingeSDK/hingesdk/exceptions.py:8 | missing details become `{}` |
| Exceptions.RequestDetails | HingeSDK/hingesdk/exceptions.py:30-36 | a request error's details have the five keys in order, distinct |
| Exceptions.RequestDetailsLookup | HingeSDK/hingesdk/exceptions.py:30-36 | `status_code` is the status; `response_body` is the body or "No response body"; the other three are None |
| Exceptions.Render | HingeSDK/hingesdk/exceptions.py:12-20 | `HingeAPIError.__str__`. Specified by ErrorLines, RenderedStart, RenderedEnd, RenderHead and ApiError.ToString |
| Exceptions.ErrorLines | HingeSDK/hingesdk/exceptions.py:13-19 | the first line is the prefix and message; `Details:` comes only with details; then one line per entry in order; the last two lines are the traceback header and the traceback |
| Exceptions.RenderedStart | HingeSDK/hingesdk/exceptions.py:12-20 | the text starts with `Hinge API Error: ` and the message, followed by a `Details:` line exactly when there are details |
| Exceptions.RenderedEnd | HingeSDK/hingesdk/exceptions.py:18-20 | the text ends with a blank line, `Traceback:` and the traceback |
| Exceptions.RenderHead | HingeSDK/hingesdk/exceptions.py:13-20 | the text is the first line, a newline, and the remaining lines joined |
| Exceptions.ApiError.Base | HingeSDK/hingesdk/exceptions.py:6-9 | keeps the message, the details (or `{}`) and the traceback |
| Exceptions.ApiError.Auth | HingeSDK/hingesdk/exceptions.py:24-25 | the message is `Authentication Error: ` plus the given one |
| Exceptions.ApiError.Request | HingeSDK/hingesdk/exceptions.py:29-37 | the message is `Request Error: ` plus the given one; the details are the five request entries |
| Exceptions.ApiError.SetDetail | HingeSDK/hingesdk/client.py:108-113 | assigning a detail changes only that entry of the details |
| Exceptions.ApiError.ToString | HingeSDK/hingesdk/exceptions.py:12-20 | `__str__`'s loop over the details yields `Render` |

## Left out

- HTTP transport, `raise_for_status`, `response.json()` and its decode errors. The outcome of a request is a parameter: a `Transport` for the client, or a `Fetched` answer for the tools and the backend.
- File I/O: `json.load`/`json.dump`, `os.path.exists`, unlinking and directories. The files are values (`StoreFile`, `SavedFile`, the prompt mapping as `Option<Json>`). A backend store that does not decode is `Unreadable`, and a scrape output file that does not decode is `Undecodable`. A prompt mapping file that exists but does not decode is not a case: the mapping is the decoded value or missing.
- `time.sleep`, `random.uniform` and the logging. Only whether a sleep happens, and after which write, is recorded.
- `uuid.uuid4()` and `datetime.utcnow()` are parameters (`ratingId`, `created`, `dedupId`), and so is `traceback.format_exc()`.
- `HingeSDK/hingesdk/media.py`, `login_with_sms`, and the image and content download helpers: network downloads, interactive input and file names.
- `get_standouts`, `get_settings` and the other SDK endpoints are left out because they only forward a request. The tools take the standouts listing as an answer.
- The FastAPI layer: routing, CORS, the request models, `get_client`, and the pass-through endpoints (profile, account, traits, settings, standouts, like limit, health, skip). Only the bodies of the modelled endpoints are kept, and a handler's `HTTPException` is kept only as its status.
- Backend.SavedListing: the `error` text of a failed listing is not modelled, only that it failed.
- Backend.Like: the detail text of the 500 is not modelled.
- Backend.MyProfile: the `",".join` failure of a missing `USER_ID` is not modelled. The answer of `get_public_users` is a parameter.
- The bot's `get_clients` and the client's construction by the bot and the backend are left out. The modelled methods take a `HingeClient` in a valid state.
- `models.py`, `setup.py` and `__init__.py` have no behaviour. `ProfileSource` is a two-constructor datatype.
- Floating-point numbers: `Json` has no float case, so a profile holding a fractional number is not represented, and neither are `bool(0.0)` nor `1 == 1.0` as equal keys.
- Python's hash equality across types is left out: `True == 1` as dict keys or set members is not modelled. Keys are compared structurally.
- Json.Repr: `repr` escaping is simplified to single quotes without escapes, and `Strings.Lower` lowercases ASCII letters only.
- `json.dump` turning non-string keys into strings is not modelled. The output dicts keep the ids as read.
- Tools.Scrape: a saved file that decodes to something other than a JSON object ends the run as `Malformed` before any iteration. The source goes on with such a value. Its `user_id in existing_data` is a membership test in a list, a substring test in a string, and raises for a number, a boolean or null. Its `existing_data[user_id] = {...}` then raises for a string, and for a list unless the id is an integer index in range, where it overwrites that element of the list.
- Tools.CreateProfileJson: an exception raised in the middle of the profile loop abandons the partial output. The model does not say what the source's half-filled dict held, because the source never writes it.
- Tools.Count: a negative `iterations` runs no iteration, as `range` does. The final log line of the scrape is not modelled.
- Tools.ListingEntries: the SDK's `active_today`/`new_here` filters are not passed to the listing answer, which is a parameter.
