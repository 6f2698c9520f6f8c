/** The REST client: how a request to the locations backend is built and how
    the outcome of `fetch` and of reading its JSON body is turned into a value,
    an `ApiClientError`, or a generic connection error. The network call and
    the JSON parser are not modelled; their outcome is an input. */
module Api {

  import opened Domain

  const DefaultApiUrl: string := "http://localhost:3000"
  const JsonContentType: string := "application/json"
  const ConnectionPrefix: string := "Erro ao conectar com a API: "
  const UnknownError: string := "Erro desconhecido"

  /** `process.env.NEXT_PUBLIC_API_URL || 'http://localhost:3000'`: an unset or
      empty variable falls back to the local default. */
  function ApiUrl(env: Option<string>): (url: string)
    ensures env.Some? && env.value != "" ==> url == env.value
    ensures env.None? || env.value == "" ==> url == DefaultApiUrl
    ensures url != ""
  {
    match env
    case Some(v) => if v != "" then v else DefaultApiUrl
    case None => DefaultApiUrl
  }

  // ---------------------------------------------------------------------------
  // Error messages

  /** The `message` field of an error body: one string, a list of strings, or
      missing (`undefined`). */
  datatype Message = Text(text: string) | Lines(lines: seq<string>) | Missing

  function TotalLength(parts: seq<string>): nat {
    if parts == [] then 0 else |parts[0]| + TotalLength(parts[1..])
  }

  /** `Array.prototype.join`: a joined message is as long as its parts and
      one separator between each two neighbours (`JoinLayout` places them). */
  function Join(parts: seq<string>, sep: string): (r: string)
    ensures parts != [] ==> |r| == TotalLength(parts) + |sep| * (|parts| - 1)
  {
    if parts == [] then ""
    else if |parts| == 1 then parts[0]
    else parts[0] + sep + Join(parts[1..], sep)
  }

  /** Where part `i` of a joined message starts: after the parts before it
      and one separator after each of them. */
  function PartStart(parts: seq<string>, sep: string, i: nat): nat
    requires i <= |parts|
  {
    TotalLength(parts[..i]) + |sep| * i
  }

  /** The first part of a join starts at its beginning. */
  lemma PartStartZero(parts: seq<string>, sep: string)
    ensures PartStart(parts, sep, 0) == 0
  {
    assert parts[..0] == [];
  }

  /** Part `i` of a join starts `|parts[0]| + |sep|` further on than part
      `i - 1` of the join of the remaining parts. */
  lemma {:induction false} PartStartInTail(parts: seq<string>, sep: string, i: nat)
    requires 1 <= i <= |parts|
    ensures PartStart(parts, sep, i) == |parts[0]| + |sep| + PartStart(parts[1..], sep, i - 1)
  {
    assert parts[1..][..i - 1] == parts[..i][1..];
    assert TotalLength(parts[..i]) == |parts[0]| + TotalLength(parts[..i][1..]);
    assert |sep| * i == |sep| + |sep| * (i - 1);
  }

  /** Each part of a joined message can be found in it, starting right after
      the parts before it and their separators. */
  lemma {:induction false} JoinContainsPart(parts: seq<string>, sep: string, i: nat)
    requires i < |parts|
    ensures var start := PartStart(parts, sep, i);
      start + |parts[i]| <= |Join(parts, sep)|
      && Join(parts, sep)[start..start + |parts[i]|] == parts[i]
  {
    if i == 0 {
      PartStartZero(parts, sep);
    } else {
      JoinContainsPart(parts[1..], sep, i - 1);
      var tail := Join(parts[1..], sep);
      assert Join(parts, sep) == parts[0] + sep + tail;
      var start' := PartStart(parts[1..], sep, i - 1);
      PartStartInTail(parts, sep, i);
      SliceAfter(parts[0] + sep, tail, start', start' + |parts[i]|);
    }
  }

  /** Right after each part but the last comes the separator. */
  lemma {:induction false} JoinSeparator(parts: seq<string>, sep: string, i: nat)
    requires i + 1 < |parts|
    ensures var end := PartStart(parts, sep, i) + |parts[i]|;
      end + |sep| <= |Join(parts, sep)| && Join(parts, sep)[end..end + |sep|] == sep
  {
    var tail := Join(parts[1..], sep);
    assert Join(parts, sep) == parts[0] + sep + tail;
    if i == 0 {
      PartStartZero(parts, sep);
      SliceMiddle(parts[0], sep, tail);
    } else {
      JoinSeparator(parts[1..], sep, i - 1);
      var end' := PartStart(parts[1..], sep, i - 1) + |parts[i]|;
      PartStartInTail(parts, sep, i);
      SliceAfter(parts[0] + sep, tail, end', end' + |sep|);
    }
  }

  /** Every part sits at its start in `text`. */
  predicate PartsAt(parts: seq<string>, sep: string, text: string) {
    forall i :: 0 <= i < |parts| ==>
      PartStart(parts, sep, i) + |parts[i]| <= |text|
      && text[PartStart(parts, sep, i)..PartStart(parts, sep, i) + |parts[i]|] == parts[i]
  }

  /** The separator sits right after every part but the last in `text`. */
  predicate SeparatorsAt(parts: seq<string>, sep: string, text: string) {
    forall i :: 0 <= i < |parts| - 1 ==>
      PartStart(parts, sep, i) + |parts[i]| + |sep| <= |text|
      && text[PartStart(parts, sep, i) + |parts[i]|..PartStart(parts, sep, i) + |parts[i]| + |sep|] == sep
  }

  /** `text` is laid out as `parts` joined by `sep`: exactly as long as the
      parts and separators, every part at its start, and the separator right
      after every part but the last. */
  predicate JoinedBy(parts: seq<string>, sep: string, text: string)
    requires parts != []
  {
    && |text| == TotalLength(parts) + |sep| * (|parts| - 1)
    && PartsAt(parts, sep, text)
    && SeparatorsAt(parts, sep, text)
  }

  /** The whole layout of a joined message. */
  lemma JoinLayout(parts: seq<string>, sep: string)
    requires parts != []
    ensures JoinedBy(parts, sep, Join(parts, sep))
  {
    forall i | 0 <= i < |parts|
      ensures PartStart(parts, sep, i) + |parts[i]| <= |Join(parts, sep)|
      ensures Join(parts, sep)[PartStart(parts, sep, i)..PartStart(parts, sep, i) + |parts[i]|] == parts[i]
    {
      JoinContainsPart(parts, sep, i);
    }
    forall i | 0 <= i < |parts| - 1
      ensures PartStart(parts, sep, i) + |parts[i]| + |sep| <= |Join(parts, sep)|
      ensures Join(parts, sep)[PartStart(parts, sep, i) + |parts[i]|..PartStart(parts, sep, i) + |parts[i]| + |sep|] == sep
    {
      JoinSeparator(parts, sep, i);
    }
  }

  /** The middle of a concatenation of three. */
  lemma SliceMiddle(a: string, b: string, c: string)
    ensures |a| + |b| <= |a + b + c| && (a + b + c)[|a|..|a| + |b|] == b
  {
  }

  /** A slice found at `off + lo` in `text` is found at `lo` in `text[off..]`. */
  lemma SliceShift(text: string, off: nat, lo: nat, hi: nat)
    requires off + hi <= |text| && lo <= hi
    ensures text[off..][lo..hi] == text[off + lo..off + hi]
  {
  }

  lemma {:induction false} PartsAtTail(parts: seq<string>, sep: string, text: string)
    requires |parts| >= 2 && |parts[0]| + |sep| <= |text| && PartsAt(parts, sep, text)
    ensures PartsAt(parts[1..], sep, text[|parts[0]| + |sep|..])
  {
    var off := |parts[0]| + |sep|;
    var tail := parts[1..];
    forall i | 0 <= i < |tail|
      ensures PartStart(tail, sep, i) + |tail[i]| <= |text| - off
      ensures text[off..][PartStart(tail, sep, i)..PartStart(tail, sep, i) + |tail[i]|] == tail[i]
    {
      PartStartInTail(parts, sep, i + 1);
      SliceShift(text, off, PartStart(tail, sep, i), PartStart(tail, sep, i) + |tail[i]|);
    }
  }

  lemma {:induction false} SeparatorsAtTail(parts: seq<string>, sep: string, text: string)
    requires |parts| >= 2 && |parts[0]| + |sep| <= |text| && SeparatorsAt(parts, sep, text)
    ensures SeparatorsAt(parts[1..], sep, text[|parts[0]| + |sep|..])
  {
    var off := |parts[0]| + |sep|;
    var tail := parts[1..];
    forall i | 0 <= i < |tail| - 1
      ensures PartStart(tail, sep, i) + |tail[i]| + |sep| <= |text| - off
      ensures text[off..][PartStart(tail, sep, i) + |tail[i]|..PartStart(tail, sep, i) + |tail[i]| + |sep|] == sep
    {
      PartStartInTail(parts, sep, i + 1);
      SliceShift(text, off, PartStart(tail, sep, i) + |tail[i]|, PartStart(tail, sep, i) + |tail[i]| + |sep|);
    }
  }

  /** Dropping the first part and its separator from a text laid out as a
      join leaves the rest laid out as the join of the remaining parts. */
  lemma {:induction false} JoinedByTail(parts: seq<string>, sep: string, text: string)
    requires |parts| >= 2 && JoinedBy(parts, sep, text)
    ensures |parts[0]| + |sep| <= |text| && JoinedBy(parts[1..], sep, text[|parts[0]| + |sep|..])
  {
    assert |sep| * (|parts| - 1) == |sep| + |sep| * (|parts| - 2);
    PartsAtTail(parts, sep, text);
    SeparatorsAtTail(parts, sep, text);
  }

  /** The layout determines the text: only the join is laid out as the join. */
  lemma {:induction false} JoinedByIsJoin(parts: seq<string>, sep: string, text: string)
    requires parts != [] && JoinedBy(parts, sep, text)
    ensures text == Join(parts, sep)
  {
    var first := parts[0];
    PartStartZero(parts, sep);
    assert text[0..|first|] == first;
    if |parts| == 1 {
      assert parts[1..] == [];
      assert |sep| * (|parts| - 1) == 0;
      assert text == text[0..|first|];
    } else {
      var off := |first| + |sep|;
      assert text[|first|..off] == sep;
      JoinedByTail(parts, sep, text);
      JoinedByIsJoin(parts[1..], sep, text[off..]);
      SplitThree(text, |first|, off);
    }
  }

  /** A text is its three pieces cut at `i` and `j`. */
  lemma SplitThree(text: string, i: nat, j: nat)
    requires i <= j <= |text|
    ensures text == text[0..i] + text[i..j] + text[j..]
  {
  }

  /** A slice of the second half of a concatenation. */
  lemma SliceAfter(a: string, b: string, lo: nat, hi: nat)
    requires lo <= hi <= |b|
    ensures (a + b)[|a| + lo..|a| + hi] == b[lo..hi]
  {
  }

  /** An error raised for a non-OK HTTP response. */
  datatype ApiClientError = ApiClientError(statusCode: int, error: string, message: string, name: string)

  /** The text of an error message: a list is joined with ", ", a string is
      kept as it is, and a missing message (`super(undefined)`) gives the
      empty text. */
  function MessageText(message: Message): (text: string)
    ensures message.Text? ==> text == message.text
    ensures message.Missing? ==> text == ""
    ensures message.Lines? && |message.lines| == 1 ==> text == message.lines[0]
    ensures message.Lines? && message.lines == [] ==> text == ""
    ensures message.Lines? && message.lines != [] ==> JoinedBy(message.lines, ", ", text)
  {
    match message
    case Text(t) => t
    case Missing => ""
    case Lines(ls) =>
      if ls == [] then "" else (JoinLayout(ls, ", "); Join(ls, ", "))
  }

  /** The constructor: the status code and error label are kept, the message
      is normalised, and the name is always "ApiClientError". */
  function NewApiClientError(statusCode: int, error: string, message: Message): (e: ApiClientError)
    ensures e.statusCode == statusCode && e.error == error && e.name == "ApiClientError"
    ensures e.message == MessageText(message)
  {
    ApiClientError(statusCode, error, MessageText(message), "ApiClientError")
  }

  // ---------------------------------------------------------------------------
  // Requests

  datatype RequestOptions = RequestOptions(verb: Option<string>, body: Option<string>, headers: map<string, string>)

  datatype Request = Request(url: string, verb: Option<string>, body: Option<string>, headers: map<string, string>)

  /** The URL is the base URL followed by the endpoint; the caller's options are
      kept, and the headers are a JSON content type that the caller's own
      headers may override. */
  function BuildRequest(apiUrl: string, endpoint: string, options: RequestOptions): (r: Request)
    ensures r.url == apiUrl + endpoint
    ensures r.verb == options.verb && r.body == options.body
    ensures r.headers.Keys == options.headers.Keys + {"Content-Type"}
    ensures forall k :: k in options.headers ==> r.headers[k] == options.headers[k]
    ensures "Content-Type" !in options.headers ==> r.headers["Content-Type"] == JsonContentType
  {
    Request(apiUrl + endpoint, options.verb, options.body,
            map["Content-Type" := JsonContentType] + options.headers)
  }

  // ---------------------------------------------------------------------------
  // Outcome classification

  /** The fields read from an error body (`data as ApiError`). */
  datatype ApiErrorBody = ApiErrorBody(statusCode: int, message: Message, error: string)

  /** Reading the fields of a parsed error body: the fields, or the value
      thrown by the property access (the `TypeError` for a `null` body). */
  datatype FieldsRead = Fields(fields: ApiErrorBody) | AccessThrew(cause: Thrown)

  /** What `response.json()` produced: a parsed value or a thrown value. */
  datatype BodyRead<T> = Parsed(value: T) | Unparseable(cause: Thrown)

  /** What `fetch` produced: a thrown value, or a response with its status and
      the result that reading its body would give. */
  datatype FetchOutcome<T> = NetworkFailure(cause: Thrown) | Responded(status: int, body: BodyRead<T>)

  /** `response.ok`: the status is in the range 200-299, the successful
      class of section 15.3 of RFC 9110. */
  predicate Ok(status: int)
    ensures Ok(status) <==> status / 100 == 2
  {
    200 <= status <= 299
  }

  /** How `apiClient` settles: `undefined`, a value, or one of two rejections. */
  datatype ApiResult<T> = NoContent | Data(value: T) | ClientFailure(err: ApiClientError) | ConnectionFailure(message: string)

  /** `apiClient` once the request has been sent. `asApiError` reads the
      fields of a parsed body as an error body. A 204 reply (section 15.3.5 of
      RFC 9110) settles to `undefined` before the body is read; an OK reply
      gives its parsed body; any other reply rejects with an `ApiClientError`
      built from the error body's fields, which passes through the catch
      unchanged. A network failure, an unreadable body, or an error body whose
      fields cannot be read (a `null` body) rejects with a connection error
      carrying the thrown value's message. */
  function ApiClient<T>(outcome: FetchOutcome<T>, asApiError: T -> FieldsRead): (r: ApiResult<T>)
    ensures r.NoContent? <==> outcome.Responded? && outcome.status == 204
    ensures r.Data? <==>
      outcome.Responded? && outcome.status != 204 && Ok(outcome.status) && outcome.body.Parsed?
    ensures r.Data? ==> r.value == outcome.body.value
    ensures r.ClientFailure? <==>
      outcome.Responded? && outcome.status != 204 && !Ok(outcome.status) && outcome.body.Parsed?
      && asApiError(outcome.body.value).Fields?
    ensures r.ClientFailure? ==>
      var b := asApiError(outcome.body.value).fields;
      r.err == NewApiClientError(b.statusCode, b.error, b.message)
    ensures r.ConnectionFailure? <==>
      || outcome.NetworkFailure?
      || (outcome.status != 204 && outcome.body.Unparseable?)
      || (outcome.status != 204 && !Ok(outcome.status) && outcome.body.Parsed?
          && asApiError(outcome.body.value).AccessThrew?)
    ensures r.ConnectionFailure? ==>
      var cause :=
        if outcome.NetworkFailure? then outcome.cause
        else if outcome.body.Unparseable? then outcome.body.cause
        else asApiError(outcome.body.value).cause;
      r.message == ConnectionPrefix + MessageOr(cause, UnknownError)
  {
    match outcome
    case NetworkFailure(cause) => ConnectionFailure(ConnectionPrefix + MessageOr(cause, UnknownError))
    case Responded(status, body) =>
      if status == 204 then NoContent
      else
        match body
        case Unparseable(cause) => ConnectionFailure(ConnectionPrefix + MessageOr(cause, UnknownError))
        case Parsed(data) =>
          if !Ok(status) then
            match asApiError(data)
            case Fields(b) => ClientFailure(NewApiClientError(b.statusCode, b.error, b.message))
            case AccessThrew(cause) => ConnectionFailure(ConnectionPrefix + MessageOr(cause, UnknownError))
          else Data(data)
  }

  /** A 204 reply never depends on its body: the body is not read. */
  lemma NoContentIgnoresBody<T>(b1: BodyRead<T>, b2: BodyRead<T>, asApiError: T -> FieldsRead)
    ensures ApiClient(Responded(204, b1), asApiError) == ApiClient(Responded(204, b2), asApiError) == NoContent
  {
  }
}
