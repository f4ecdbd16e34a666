/** The SDK's exception hierarchy (`HingeSDK/hingesdk/exceptions.py`):
    `HingeAPIError` and its two subclasses `HingeAuthError` and `HingeRequestError`,
    modelled as one class whose `kind` records which of the three was raised. */
module Exceptions {
  import opened Wrappers
  import opened Dicts
  import opened Json
  import opened Strings

  datatype ErrorKind = ApiErrorKind | AuthErrorKind | RequestErrorKind

  const ApiPrefix := "Hinge API Error: "
  const AuthPrefix := "Authentication Error: "
  const RequestPrefix := "Request Error: "
  const NoResponseBody := "No response body"
  const TracebackLine := "\nTraceback:"

  /** `details or {}`: a missing details dict becomes the empty one. */
  function DetailsOrEmpty(details: Option<Dict<string, Json>>): (r: Dict<string, Json>)
    ensures details.None? ==> r == []
    ensures details.Some? ==> r == details.value
  {
    details.GetOr([])
  }

  /** The details a `HingeRequestError` starts with: the status and the response body,
      and three entries left empty for the client to fill in. */
  function RequestDetails(statusCode: int, responseBody: Option<string>): (d: Dict<string, Json>)
    ensures Keys(d) == ["status_code", "response_body", "endpoint", "request_headers", "request_body"]
    ensures Wf(d)
  {
    [ ("status_code", Int(statusCode)),
      ("response_body", Str(if Given(responseBody) then responseBody.value else NoResponseBody)),
      ("endpoint", Null),
      ("request_headers", Null),
      ("request_body", Null) ]
  }

  /** What each of the five request details looks up to. */
  lemma RequestDetailsLookup(statusCode: int, responseBody: Option<string>)
    ensures var d := RequestDetails(statusCode, responseBody);
      && Get(d, "status_code") == Some(Int(statusCode))
      && Get(d, "response_body") == Some(Str(if Given(responseBody) then responseBody.value else NoResponseBody))
      && Get(d, "endpoint") == Some(Null)
      && Get(d, "request_headers") == Some(Null)
      && Get(d, "request_body") == Some(Null)
  {
    var d := RequestDetails(statusCode, responseBody);
    GetEntry(d, 2);
    GetEntry(d, 3);
    GetEntry(d, 4);
  }

  /** One `"  key: value"` line of the rendered details. */
  function DetailLine(entry: (string, Json)): string
  {
    "  " + entry.0 + ": " + Display(entry.1)
  }

  /** The lines that `__str__` joins with newlines. */
  function ErrorLines(message: string, details: Dict<string, Json>, traceback: string): (lines: seq<string>)
    ensures |lines| == if details == [] then 3 else 4 + |details|
    ensures lines[0] == ApiPrefix + message
    ensures details != [] ==> lines[1] == "Details:"
    ensures forall i :: 0 <= i < |details| ==> lines[2 + i] == DetailLine(details[i])
    ensures lines[|lines| - 2..] == [TracebackLine, traceback]
  {
    var mid := if details == [] then []
               else ["Details:"] + seq(|details|, i requires 0 <= i < |details| => DetailLine(details[i]));
    var lines := [ApiPrefix + message] + mid + [TracebackLine, traceback];
    assert lines[|lines| - 2..] == [TracebackLine, traceback];
    lines
  }

  /** What `str(error)` returns. */
  function Render(message: string, details: Dict<string, Json>, traceback: string): string
  {
    Join("\n", ErrorLines(message, details, traceback))
  }

  /** The rendered error is its first line, a newline, and the rest. */
  lemma RenderHead(message: string, details: Dict<string, Json>, traceback: string)
    ensures Render(message, details, traceback)
            == (ApiPrefix + message) + "\n" + Join("\n", ErrorLines(message, details, traceback)[1..])
  {
    var lines := ErrorLines(message, details, traceback);
    assert lines == [lines[0]] + lines[1..];
  }

  /** The rendered error starts with the fixed prefix and the message, and continues with a
      `Details:` line exactly when there are details. */
  lemma RenderedStart(message: string, details: Dict<string, Json>, traceback: string)
    ensures IsPrefix(ApiPrefix + message, Render(message, details, traceback))
    ensures IsPrefix(ApiPrefix + message + "\nDetails:", Render(message, details, traceback)) <==> details != []
  {
    RenderHead(message, details, traceback);
    var head := ApiPrefix + message;
    var rest := ErrorLines(message, details, traceback)[1..];
    JoinStartsWith("\n", rest);
    var s := Render(message, details, traceback);
    assert s == head + ("\n" + Join("\n", rest));
    if details == [] {
      assert rest[0] == TracebackLine;
      assert s[|head| + 1] == Join("\n", rest)[0] == '\n';
      assert (head + "\nDetails:")[|head| + 1] == 'D';
    } else {
      assert rest[0] == "Details:";
      assert s[..|head| + 9] == head + "\n" + "Details:";
    }
  }

  /** The rendered error ends with a blank line, the traceback header and the traceback. */
  lemma RenderedEnd(message: string, details: Dict<string, Json>, traceback: string)
    ensures IsSuffix("\n" + TracebackLine + "\n" + traceback, Render(message, details, traceback))
  {
    var lines := ErrorLines(message, details, traceback);
    var n := |lines| - 2;
    assert lines == lines[..n] + [TracebackLine, traceback] by {
      assert lines[n..] == [TracebackLine, traceback];
    }
    JoinEnds("\n", lines[..n], TracebackLine, traceback);
  }

  /** The value an `ApiError` object carries. */
  datatype Failure = Failure(kind: ErrorKind, message: string, details: Dict<string, Json>, traceback: string)

  class ApiError {
    const kind: ErrorKind
    var message: string
    var details: Dict<string, Json>
    var traceback: string

    function View(): Failure
      reads this
    {
      Failure(kind, message, details, traceback)
    }

    /** `HingeAPIError(message, details)`; `traceback` is what `traceback.format_exc()`
        yields at the point of construction. */
    constructor Base(message: string, details: Option<Dict<string, Json>>, traceback: string)
      ensures kind == ApiErrorKind
      ensures this.message == message && this.details == DetailsOrEmpty(details) && this.traceback == traceback
    {
      kind := ApiErrorKind;
      this.message := message;
      this.details := DetailsOrEmpty(details);
      this.traceback := traceback;
    }

    /** `HingeAuthError(message, details)`. */
    constructor Auth(message: string, details: Option<Dict<string, Json>>, traceback: string)
      ensures kind == AuthErrorKind
      ensures this.message == AuthPrefix + message
      ensures this.details == DetailsOrEmpty(details) && this.traceback == traceback
    {
      kind := AuthErrorKind;
      this.message := AuthPrefix + message;
      this.details := DetailsOrEmpty(details);
      this.traceback := traceback;
    }

    /** `HingeRequestError(status_code, message, response_body)`. */
    constructor Request(statusCode: int, message: string, responseBody: Option<string>, traceback: string)
      ensures kind == RequestErrorKind
      ensures this.message == RequestPrefix + message
      ensures this.details == RequestDetails(statusCode, responseBody) && this.traceback == traceback
    {
      kind := RequestErrorKind;
      this.message := RequestPrefix + message;
      this.details := RequestDetails(statusCode, responseBody);
      this.traceback := traceback;
    }

    /** `error.details[key] = value`. */
    method SetDetail(key: string, value: Json)
      modifies this
      ensures details == Put(old(details), key, value)
      ensures message == old(message) && traceback == old(traceback)
    {
      details := Put(details, key, value);
    }

    /** `__str__`: collects the lines, one per detail entry in order, and joins them. */
    method ToString() returns (s: string)
      ensures s == Render(message, details, traceback)
    {
      var lines := [ApiPrefix + message];
      if details != [] {
        lines := lines + ["Details:"];
        var i := 0;
        while i < |details|
          invariant 0 <= i <= |details|
          invariant |lines| == 2 + i && lines[0] == ApiPrefix + message && lines[1] == "Details:"
          invariant forall j :: 0 <= j < i ==> lines[2 + j] == DetailLine(details[j])
        {
          lines := lines + [DetailLine(details[i])];
          i := i + 1;
        }
      }
      lines := lines + [TracebackLine, traceback];
      assert lines == ErrorLines(message, details, traceback);
      s := Join("\n", lines);
    }
  }
}
