/**
 * `DefaultPushsaferClient.sendPushNotification`: builds the form parameters of a Pushsafer API
 * request from a notification, posts them to `{baseUrl}/api` with the configured timeouts, and
 * turns the response status, or the exception the transport raised, into a typed result.
 *
 * The HTTP transport is a parameter: a function from the request to what executing it produced
 * (a status code, a socket timeout, or some other exception).
 */
module PushsaferClient {
  import opened Wrappers
  import opened JavaLang

  // ---------------------------------------------------------------------------------------------
  // Data model
  // ---------------------------------------------------------------------------------------------

  /** A `BasicNameValuePair` of the form body. */
  datatype Param = Param(name: string, value: string)

  /**
   * A `PushNotification`. `message` and `device` are references that may be null; the other
   * fields are `Optional`s. Sound, vibration and icon are given by their ids, the URL by its
   * external form.
   */
  datatype Notification = Notification(
    message: Option<string>,
    device: Option<string>,
    title: Option<string>,
    soundId: Option<string>,
    vibrationId: Option<string>,
    iconId: Option<string>,
    iconColorHex: Option<string>,
    urlExternalForm: Option<string>,
    urlText: Option<string>,
    timeToLive: Option<Duration>)

  /** A `PushsaferClientConfiguration`; the two timeouts are the `long` results of `Duration.toMillis()`. */
  datatype Configuration = Configuration(
    pushsaferBaseUrl: string,
    connectionTimeoutMillis: int,
    responseTimeoutMillis: int)

  /** The client's final fields: the private key (non-null since construction) and the configuration. */
  datatype Client = Client(privateKey: string, configuration: Configuration)

  /** The `HttpPost` handed to the HTTP client: target, content type, form body and `RequestConfig` timeouts. */
  datatype HttpPost = HttpPost(
    uri: string,
    contentType: string,
    form: seq<Param>,
    connectTimeout: int,
    connectionRequestTimeout: int,
    socketTimeout: int)

  /** `SendPushNotificationResponse.ErrorReason`. */
  datatype ErrorReason =
    | InvalidKey
    | InvalidDevice
    | InvalidDeviceGroup
    | ExceededApiCallsQuota
    | RequestTimedOut
    | Unknown

  /** `SendPushNotificationResponse`: `successfulResponse()` or `failureResponse(reason)`. */
  datatype SendResult = Success | Failure(reason: ErrorReason)

  /** What executing the request produced: a response with a status code, or an exception. */
  datatype TransportOutcome = Status(code: int) | SocketTimeout | OtherException

  /**
   * The exceptions that can leave the body of the `try` statement. `OtherThrown` stands for any
   * `Exception` other than a `SocketTimeoutException` raised while the request runs.
   */
  datatype JavaException =
    | SocketTimeoutException
    | RuntimeException(message: string)
    | OtherThrown

  /** How the body of the `try` statement completes. */
  datatype Completion = Return(result: SendResult) | Throw(exception: JavaException)

  /**
   * How a call of `sendPushNotification` ends: it returns a response after posting exactly one
   * request, or it throws a `NullPointerException` before any request exists.
   */
  datatype Invocation = Returned(request: HttpPost, response: SendResult) | NullPointerThrown

  // ---------------------------------------------------------------------------------------------
  // Form parameters
  // ---------------------------------------------------------------------------------------------

  /** The private key and the notification fields, each sent under its own fixed key. */
  datatype Field =
    | PrivateKey | Message | Device
    | Title | Sound | Vibration | Icon | IconColor | Url | UrlText | TimeToLive

  /** The key a field is sent under. */
  function Key(f: Field): string {
    match f
    case PrivateKey => "k"
    case Message => "m"
    case Device => "d"
    case Title => "t"
    case Sound => "s"
    case Vibration => "v"
    case Icon => "i"
    case IconColor => "c"
    case Url => "u"
    case UrlText => "ut"
    case TimeToLive => "l"
  }

  /** The number of fields a request can carry. */
  const FieldCount: nat := 11

  /** Every key the client can send, in the order it sends them. */
  const ParameterOrder: seq<string> := ["k", "m", "d", "t", "s", "v", "i", "c", "u", "ut", "l"]

  /** The position at which the client adds a field's pair. */
  function Rank(f: Field): (r: nat)
    ensures r < FieldCount
  {
    match f
    case PrivateKey => 0
    case Message => 1
    case Device => 2
    case Title => 3
    case Sound => 4
    case Vibration => 5
    case Icon => 6
    case IconColor => 7
    case Url => 8
    case UrlText => 9
    case TimeToLive => 10
  }

  /** The field added at position `i`: k, m, d, t, s, v, i, c, u, ut, l. */
  function FieldAt(i: nat): (f: Field)
    requires i < FieldCount
    ensures Rank(f) == i
  {
    if i == 0 then PrivateKey
    else if i == 1 then Message
    else if i == 2 then Device
    else if i == 3 then Title
    else if i == 4 then Sound
    else if i == 5 then Vibration
    else if i == 6 then Icon
    else if i == 7 then IconColor
    else if i == 8 then Url
    else if i == 9 then UrlText
    else TimeToLive
  }

  /** Distinct fields have distinct positions. */
  lemma RankInjective(f: Field, g: Field)
    requires Rank(f) == Rank(g)
    ensures f == g
  {
  }

  /** `withUrlParameter(String, String)`. */
  function WithUrlParameter(name: string, value: string): Param {
    Param(name, value)
  }

  /**
   * `withUrlParameter(String, long)`: the value is sent in canonical decimal form (a minus sign
   * exactly for negative numbers, then digits with no leading zero) and reads back as the number.
   */
  function WithLongUrlParameter(name: string, value: int): (p: Param)
    ensures p.name == name
    ensures |p.value| >= 1 && (p.value[0] == '-' <==> value < 0)
    ensures var digits := if value < 0 then p.value[1..] else p.value;
      |digits| >= 1 && AllDigits(digits) && (digits[0] == '0' ==> digits == "0")
    ensures ParseDecimal(p.value) == Some(value)
  {
    DecimalRoundTrip(value);
    DecimalStringCanonical(value);
    NatDigitsCanonical(0);
    Param(name, DecimalString(value))
  }

  /** The wire value of a field, when there is one: the time-to-live goes as its whole minutes in decimal. */
  function FieldValue(privateKey: string, n: Notification, f: Field): Option<string> {
    match f
    case PrivateKey => Some(privateKey)
    case Message => n.message
    case Device => n.device
    case Title => n.title
    case Sound => n.soundId
    case Vibration => n.vibrationId
    case Icon => n.iconId
    case IconColor => n.iconColorHex
    case Url => n.urlExternalForm
    case UrlText => n.urlText
    case TimeToLive =>
      if n.timeToLive.Some? then Some(DecimalString(ToMinutes(n.timeToLive.value))) else None
  }

  /** The pair a field contributes: one pair when it has a value, none when it has not. */
  function Entry(privateKey: string, n: Notification, f: Field): seq<Param> {
    var v := FieldValue(privateKey, n, f);
    if v.Some? then [Param(Key(f), v.value)] else []
  }

  /** The pairs of the first `i` fields of the field order that have a value, in that order. */
  function PairsUpTo(privateKey: string, n: Notification, i: nat): seq<Param>
    requires i <= FieldCount
  {
    if i == 0 then [] else PairsUpTo(privateKey, n, i - 1) + Entry(privateKey, n, FieldAt(i - 1))
  }

  /** The first `i` fields of the field order that have a value, in that order. */
  function FieldsUpTo(privateKey: string, n: Notification, i: nat): seq<Field>
    requires i <= FieldCount
  {
    if i == 0 then []
    else
      var f := FieldAt(i - 1);
      FieldsUpTo(privateKey, n, i - 1) + if FieldValue(privateKey, n, f).Some? then [f] else []
  }

  /** The parameter list a notification with a message and a device is sent with. */
  function FormParameters(privateKey: string, n: Notification): seq<Param>
    requires n.message.Some? && n.device.Some?
  {
    PairsUpTo(privateKey, n, FieldCount)
  }

  /** The fields a notification is sent with. */
  function SentFields(privateKey: string, n: Notification): seq<Field> {
    FieldsUpTo(privateKey, n, FieldCount)
  }

  /** The keys of a parameter list, in order. */
  function Names(ps: seq<Param>): seq<string> {
    seq(|ps|, i requires 0 <= i < |ps| => ps[i].name)
  }

  /** One for a value that is present, zero for one that is absent. */
  function Present<T>(o: Option<T>): nat {
    if o.Some? then 1 else 0
  }

  /** The number of optional fields the notification has. */
  function OptionalFieldCount(n: Notification): nat {
    Present(n.title)
    + Present(n.soundId)
    + Present(n.vibrationId)
    + Present(n.iconId)
    + Present(n.iconColorHex)
    + Present(n.urlExternalForm)
    + Present(n.urlText)
    + Present(n.timeToLive)
  }

  predicate Distinct<T(==)>(s: seq<T>) {
    forall i, j :: 0 <= i < j < |s| ==> s[i] != s[j]
  }

  // ---------------------------------------------------------------------------------------------
  // Request
  // ---------------------------------------------------------------------------------------------

  const FormUrlEncoded: string := "application/x-www-form-urlencoded"

  /** `httpPostWithUrlEncodedForm`: both connection timeouts come from the connect duration, the socket timeout from the response duration. */
  function HttpPostWithUrlEncodedForm(configuration: Configuration, requestUri: string, urlParameters: seq<Param>)
    : (r: HttpPost)
    ensures r.uri == requestUri && r.contentType == FormUrlEncoded && r.form == urlParameters
    ensures r.connectTimeout == r.connectionRequestTimeout
    ensures IntMin <= r.connectTimeout <= IntMax && IntMin <= r.socketTimeout <= IntMax
    ensures IntMin <= configuration.connectionTimeoutMillis <= IntMax ==>
      r.connectTimeout == configuration.connectionTimeoutMillis
    ensures IntMin <= configuration.responseTimeoutMillis <= IntMax ==>
      r.socketTimeout == configuration.responseTimeoutMillis
  {
    HttpPost(
      requestUri,
      FormUrlEncoded,
      urlParameters,
      LongToInt(configuration.connectionTimeoutMillis),
      LongToInt(configuration.connectionTimeoutMillis),
      LongToInt(configuration.responseTimeoutMillis))
  }

  // ---------------------------------------------------------------------------------------------
  // Outcome classification
  // ---------------------------------------------------------------------------------------------

  /** The status codes the client recognises, with the result each stands for. */
  const KnownStatus: map<int, SendResult> := map[
    200 := Success,
    250 := Failure(InvalidKey),
    255 := Failure(InvalidKey),
    270 := Failure(InvalidDevice),
    275 := Failure(InvalidDeviceGroup),
    280 := Failure(ExceededApiCallsQuota)]

  /** The body of the `try` statement once the request has been executed. */
  function TryBody(o: TransportOutcome): (c: Completion)
    ensures c.Return? <==> o.Status? && o.code in KnownStatus
    ensures c.Return? ==> c.result == KnownStatus[o.code]
    ensures c == Throw(SocketTimeoutException) <==> o == SocketTimeout
  {
    match o
    case SocketTimeout => Throw(SocketTimeoutException)
    case OtherException => Throw(OtherThrown)
    case Status(code) =>
      if code == 200 then Return(Success)
      else if code == 250 || code == 255 then Return(Failure(InvalidKey))
      else if code == 270 then Return(Failure(InvalidDevice))
      else if code == 275 then Return(Failure(InvalidDeviceGroup))
      else if code == 280 then Return(Failure(ExceededApiCallsQuota))
      else Throw(RuntimeException("Unknown error code: " + DecimalString(code)))
  }

  /** The two `catch` clauses: a `SocketTimeoutException` first, then any other `Exception`. */
  function CatchClauses(c: Completion): SendResult {
    match c
    case Return(result) => result
    case Throw(SocketTimeoutException) => Failure(RequestTimedOut)
    case Throw(_) => Failure(Unknown)
  }

  /** The response `sendPushNotification` returns for what executing the request produced. */
  function Classify(o: TransportOutcome): (r: SendResult)
    ensures r == Success <==> o == Status(200)
    ensures r == Failure(InvalidKey) <==> o == Status(250) || o == Status(255)
    ensures r == Failure(InvalidDevice) <==> o == Status(270)
    ensures r == Failure(InvalidDeviceGroup) <==> o == Status(275)
    ensures r == Failure(ExceededApiCallsQuota) <==> o == Status(280)
    ensures r == Failure(RequestTimedOut) <==> o == SocketTimeout
    ensures r == Failure(Unknown) <==>
      o == OtherException || (o.Status? && o.code !in {200, 250, 255, 270, 275, 280})
  {
    CatchClauses(TryBody(o))
  }

  // ---------------------------------------------------------------------------------------------
  // The operation
  // ---------------------------------------------------------------------------------------------

  /**
   * One `ifPresent` step for the optional field `f`: appends its pair when its value is present.
   * The list already holds the pairs of the fields before `f`.
   */
  method AddIfPresent(urlParameters: seq<Param>, name: string, value: Option<string>,
                      ghost privateKey: string, ghost n: Notification, ghost f: Field)
    returns (r: seq<Param>)
    requires f != TimeToLive && name == Key(f) && value == FieldValue(privateKey, n, f)
    requires urlParameters == PairsUpTo(privateKey, n, Rank(f))
    ensures r == PairsUpTo(privateKey, n, Rank(f) + 1)
  {
    RankInjective(FieldAt(Rank(f)), f);
    r := urlParameters;
    if value.Some? {
      r := r + [WithUrlParameter(name, value.value)];
    }
  }

  /** The last `ifPresent` step: appends the time-to-live's whole-minute count under `l` when there is one. */
  method AddMinutesIfPresent(urlParameters: seq<Param>, timeToLive: Option<Duration>,
                             ghost privateKey: string, ghost n: Notification)
    returns (r: seq<Param>)
    requires timeToLive == n.timeToLive
    requires urlParameters == PairsUpTo(privateKey, n, Rank(TimeToLive))
    ensures r == PairsUpTo(privateKey, n, Rank(TimeToLive) + 1)
  {
    r := urlParameters;
    if timeToLive.Some? {
      var minutes := ToMinutes(timeToLive.value);
      assert WithLongUrlParameter("l", minutes) == Param(Key(TimeToLive), DecimalString(minutes));
      r := r + [WithLongUrlParameter("l", minutes)];
    }
  }

  /**
   * Lines 55-59 of `sendPushNotification`: given the three mandatory pairs, appends the pairs of
   * the title, sound, vibration, icon and icon colour that are present, in that order.
   */
  method AddDisplayParameters(urlParameters: seq<Param>, ghost privateKey: string, n: Notification)
    returns (r: seq<Param>)
    requires urlParameters == PairsUpTo(privateKey, n, Rank(Title))
    ensures r == PairsUpTo(privateKey, n, Rank(IconColor) + 1)
  {
    r := AddIfPresent(urlParameters, "t", n.title, privateKey, n, Title);
    r := AddIfPresent(r, "s", n.soundId, privateKey, n, Sound);
    r := AddIfPresent(r, "v", n.vibrationId, privateKey, n, Vibration);
    r := AddIfPresent(r, "i", n.iconId, privateKey, n, Icon);
    r := AddIfPresent(r, "c", n.iconColorHex, privateKey, n, IconColor);
  }

  /**
   * Lines 60-62 of `sendPushNotification`: appends the pairs of the URL, its text and the
   * time-to-live that are present, in that order, completing the list.
   */
  method AddLinkParameters(urlParameters: seq<Param>, ghost privateKey: string, n: Notification)
    returns (r: seq<Param>)
    requires urlParameters == PairsUpTo(privateKey, n, Rank(Url))
    ensures r == PairsUpTo(privateKey, n, FieldCount)
  {
    r := AddIfPresent(urlParameters, "u", n.urlExternalForm, privateKey, n, Url);
    r := AddIfPresent(r, "ut", n.urlText, privateKey, n, UrlText);
    r := AddMinutesIfPresent(r, n.timeToLive, privateKey, n);
  }

  /**
   * Lines 51-62 of `sendPushNotification`: the parameter list, or `None` where `requireNonNull`
   * throws because the message or the device is missing.
   */
  method BuildUrlParameters(privateKey: string, n: Notification) returns (r: Option<seq<Param>>)
    ensures r.None? <==> n.message.None? || n.device.None?
    ensures r.Some? ==> r.value == FormParameters(privateKey, n)
  {
    var urlParameters: seq<Param> := [];
    urlParameters := urlParameters + [WithUrlParameter("k", privateKey)];
    if n.message.None? {
      return None;
    }
    urlParameters := urlParameters + [WithUrlParameter("m", n.message.value)];
    if n.device.None? {
      return None;
    }
    urlParameters := urlParameters + [WithUrlParameter("d", n.device.value)];
    MandatoryPairs(privateKey, n);
    urlParameters := AddDisplayParameters(urlParameters, privateKey, n);
    urlParameters := AddLinkParameters(urlParameters, privateKey, n);
    return Some(urlParameters);
  }

  /**
   * `sendPushNotification`. `execute` stands for `httpClient.execute` and is applied to the one
   * request the call posts; a missing message or device throws before any request exists.
   */
  method SendPushNotification(client: Client, n: Notification, execute: HttpPost -> TransportOutcome)
    returns (r: Invocation)
    ensures r.NullPointerThrown? <==> n.message.None? || n.device.None?
    ensures r.Returned? ==> r.request.uri == client.configuration.pushsaferBaseUrl + "/api"
    ensures r.Returned? ==> r.request.contentType == FormUrlEncoded
    ensures r.Returned? ==> r.request.form == FormParameters(client.privateKey, n)
    ensures r.Returned? ==>
      && r.request.connectTimeout == LongToInt(client.configuration.connectionTimeoutMillis)
      && r.request.connectionRequestTimeout == LongToInt(client.configuration.connectionTimeoutMillis)
      && r.request.socketTimeout == LongToInt(client.configuration.responseTimeoutMillis)
    ensures r.Returned? ==> r.response == Classify(execute(r.request))
  {
    var urlParameters := BuildUrlParameters(client.privateKey, n);
    if urlParameters.None? {
      return NullPointerThrown;
    }
    var post := HttpPostWithUrlEncodedForm(
      client.configuration, client.configuration.pushsaferBaseUrl + "/api", urlParameters.value);
    r := Returned(post, Classify(execute(post)));
  }

  // ---------------------------------------------------------------------------------------------
  // Lemmas: form parameters
  // ---------------------------------------------------------------------------------------------

  /** The pairs of the first `i` fields are the keys and values of those among them that have a value. */
  lemma {:induction false} PairsMatchFields(privateKey: string, n: Notification, i: nat)
    requires i <= FieldCount
    ensures |PairsUpTo(privateKey, n, i)| == |FieldsUpTo(privateKey, n, i)|
    ensures forall j :: 0 <= j < |FieldsUpTo(privateKey, n, i)| ==>
      && FieldValue(privateKey, n, FieldsUpTo(privateKey, n, i)[j]).Some?
      && PairsUpTo(privateKey, n, i)[j] == Param(Key(FieldsUpTo(privateKey, n, i)[j]),
                                                 FieldValue(privateKey, n, FieldsUpTo(privateKey, n, i)[j]).value)
    decreases i
  {
    if i > 0 {
      PairsMatchFields(privateKey, n, i - 1);
    }
  }

  /** The fields among the first `i` that have a value come in strictly increasing position. */
  lemma {:induction false} FieldsUpToOrdered(privateKey: string, n: Notification, i: nat)
    requires i <= FieldCount
    ensures forall j :: 0 <= j < |FieldsUpTo(privateKey, n, i)| ==> Rank(FieldsUpTo(privateKey, n, i)[j]) < i
    ensures forall j, k :: 0 <= j < k < |FieldsUpTo(privateKey, n, i)| ==>
      Rank(FieldsUpTo(privateKey, n, i)[j]) < Rank(FieldsUpTo(privateKey, n, i)[k])
    decreases i
  {
    if i > 0 {
      FieldsUpToOrdered(privateKey, n, i - 1);
      var before, fs := FieldsUpTo(privateKey, n, i - 1), FieldsUpTo(privateKey, n, i);
      var f := FieldAt(i - 1);
      assert fs == before + if FieldValue(privateKey, n, f).Some? then [f] else [];
      forall j | 0 <= j < |fs|
        ensures Rank(fs[j]) < i
      {
        if j < |before| {
          assert fs[j] == before[j];
        } else {
          assert fs[j] == f;
        }
      }
      forall j, k | 0 <= j < k < |fs|
        ensures Rank(fs[j]) < Rank(fs[k])
      {
        assert fs[j] == before[j];
        if k < |before| {
          assert fs[k] == before[k];
        } else {
          assert fs[k] == f;
        }
      }
    }
  }

  /** A field is among the first `i` with a value exactly when it comes before position `i` and has one. */
  lemma {:induction false} FieldsUpToMembers(privateKey: string, n: Notification, i: nat)
    requires i <= FieldCount
    ensures forall f :: f in FieldsUpTo(privateKey, n, i) <==> Rank(f) < i && FieldValue(privateKey, n, f).Some?
    decreases i
  {
    if i > 0 {
      FieldsUpToMembers(privateKey, n, i - 1);
      forall g
        ensures g in FieldsUpTo(privateKey, n, i) <==> Rank(g) < i && FieldValue(privateKey, n, g).Some?
      {
        if Rank(g) == i - 1 {
          RankInjective(g, FieldAt(i - 1));
        }
      }
    }
  }

  /** No two fields share a key. */
  lemma KeyInjective(f: Field, g: Field)
    requires Key(f) == Key(g)
    ensures f == g
  {
  }

  /** Each field's key stands at the field's own position in `ParameterOrder`. */
  lemma KeyAtRank(f: Field)
    ensures ParameterOrder[Rank(f)] == Key(f)
  {
  }

  lemma {:induction false} DistinctOccurrences<T>(s: seq<T>, x: T)
    requires Distinct(s)
    ensures multiset(s)[x] == if x in s then 1 else 0
    decreases |s|
  {
    if s != [] {
      assert s == [s[0]] + s[1..];
      assert Distinct(s[1..]);
      DistinctOccurrences(s[1..], x);
      assert s[0] !in s[1..];
    }
  }

  /**
   * The list holds one pair per field that has a value, with that field's key and value. Keys
   * follow the fixed order k, m, d, t, s, v, i, c, u, ut, l, and no key is sent twice.
   */
  lemma FormParametersFollowFieldOrder(privateKey: string, n: Notification)
    requires n.message.Some? && n.device.Some?
    ensures |FormParameters(privateKey, n)| == |SentFields(privateKey, n)|
    ensures forall j :: 0 <= j < |SentFields(privateKey, n)| ==>
      && FieldValue(privateKey, n, SentFields(privateKey, n)[j]).Some?
      && FormParameters(privateKey, n)[j] == Param(Key(SentFields(privateKey, n)[j]),
                                                   FieldValue(privateKey, n, SentFields(privateKey, n)[j]).value)
      && FormParameters(privateKey, n)[j].name == ParameterOrder[Rank(SentFields(privateKey, n)[j])]
    ensures forall j, k :: 0 <= j < k < |SentFields(privateKey, n)| ==>
      Rank(SentFields(privateKey, n)[j]) < Rank(SentFields(privateKey, n)[k])
    ensures forall f :: f in SentFields(privateKey, n) <==> FieldValue(privateKey, n, f).Some?
    ensures Distinct(Names(FormParameters(privateKey, n)))
  {
    var ps, fs := FormParameters(privateKey, n), SentFields(privateKey, n);
    PairsMatchFields(privateKey, n, FieldCount);
    FieldsUpToOrdered(privateKey, n, FieldCount);
    FieldsUpToMembers(privateKey, n, FieldCount);
    forall j | 0 <= j < |fs|
      ensures ps[j].name == ParameterOrder[Rank(fs[j])]
    {
      KeyAtRank(fs[j]);
    }
    NamesDistinct(privateKey, n);
  }

  /** No key is sent twice. */
  lemma NamesDistinct(privateKey: string, n: Notification)
    requires n.message.Some? && n.device.Some?
    ensures Distinct(Names(FormParameters(privateKey, n)))
  {
    var ps, fs := FormParameters(privateKey, n), SentFields(privateKey, n);
    PairsMatchFields(privateKey, n, FieldCount);
    FieldsUpToOrdered(privateKey, n, FieldCount);
    forall j, k | 0 <= j < k < |ps|
      ensures Names(ps)[j] != Names(ps)[k]
    {
      if Key(fs[j]) == Key(fs[k]) {
        KeyInjective(fs[j], fs[k]);
      }
    }
  }

  /** The list starts with the private key, the message and the device, in that order. */
  lemma MandatoryParametersFirst(privateKey: string, n: Notification)
    requires n.message.Some? && n.device.Some?
    ensures |FormParameters(privateKey, n)| >= 3
    ensures FormParameters(privateKey, n)[..3] ==
      [Param("k", privateKey), Param("m", n.message.value), Param("d", n.device.value)]
  {
    MandatoryPairs(privateKey, n);
    PairsPrefix(privateKey, n, 3, FieldCount);
  }

  /** The pairs of the three mandatory fields. */
  lemma MandatoryPairs(privateKey: string, n: Notification)
    requires n.message.Some? && n.device.Some?
    ensures PairsUpTo(privateKey, n, 3) ==
      [Param("k", privateKey), Param("m", n.message.value), Param("d", n.device.value)]
  {
    assert PairsUpTo(privateKey, n, 1) == [Param("k", privateKey)];
    assert PairsUpTo(privateKey, n, 2) == [Param("k", privateKey), Param("m", n.message.value)];
  }

  /** The pairs of the first `i` fields begin the pairs of the first `j`, for `i <= j`. */
  lemma {:induction false} PairsPrefix(privateKey: string, n: Notification, i: nat, j: nat)
    requires i <= j <= FieldCount
    ensures |PairsUpTo(privateKey, n, i)| <= |PairsUpTo(privateKey, n, j)|
    ensures forall m :: 0 <= m < |PairsUpTo(privateKey, n, i)| ==>
      PairsUpTo(privateKey, n, j)[m] == PairsUpTo(privateKey, n, i)[m]
    decreases j
  {
    if i < j {
      PairsPrefix(privateKey, n, i, j - 1);
    }
  }

  /** A field's key is in the list exactly once when the field has a value, and not at all when it has none. */
  lemma FieldParameterCount(privateKey: string, n: Notification, f: Field)
    requires n.message.Some? && n.device.Some?
    ensures multiset(Names(FormParameters(privateKey, n)))[Key(f)] ==
      if FieldValue(privateKey, n, f).Some? then 1 else 0
  {
    var ps, fs := FormParameters(privateKey, n), SentFields(privateKey, n);
    PairsMatchFields(privateKey, n, FieldCount);
    FieldsUpToMembers(privateKey, n, FieldCount);
    NamesDistinct(privateKey, n);
    if Key(f) in Names(ps) {
      var i :| 0 <= i < |ps| && Names(ps)[i] == Key(f);
      KeyInjective(fs[i], f);
    }
    if f in fs {
      var i :| 0 <= i < |fs| && fs[i] == f;
      assert Names(ps)[i] == Key(f);
    }
    DistinctOccurrences(Names(ps), Key(f));
  }

  /** Every pair in the list under a field's key carries that field's value. */
  lemma FieldParameterValue(privateKey: string, n: Notification, f: Field)
    requires n.message.Some? && n.device.Some?
    ensures forall p :: p in FormParameters(privateKey, n) && p.name == Key(f) ==>
      FieldValue(privateKey, n, f) == Some(p.value)
  {
    var ps, fs := FormParameters(privateKey, n), SentFields(privateKey, n);
    PairsMatchFields(privateKey, n, FieldCount);
    forall p | p in ps && p.name == Key(f)
      ensures FieldValue(privateKey, n, f) == Some(p.value)
    {
      var i :| 0 <= i < |ps| && ps[i] == p;
      KeyInjective(fs[i], f);
    }
  }

  /** One pair for each of the three mandatory fields and one for each optional field the notification has. */
  lemma FormParametersLength(privateKey: string, n: Notification)
    requires n.message.Some? && n.device.Some?
    ensures |FormParameters(privateKey, n)| == 3 + OptionalFieldCount(n)
  {
    MandatoryPairs(privateKey, n);
    var count := 3 + Present(n.title);
    assert |PairsUpTo(privateKey, n, 4)| == count;
    count := count + Present(n.soundId);
    assert |PairsUpTo(privateKey, n, 5)| == count;
    count := count + Present(n.vibrationId);
    assert |PairsUpTo(privateKey, n, 6)| == count;
    count := count + Present(n.iconId);
    assert |PairsUpTo(privateKey, n, 7)| == count;
    count := count + Present(n.iconColorHex);
    assert |PairsUpTo(privateKey, n, 8)| == count;
    count := count + Present(n.urlExternalForm);
    assert |PairsUpTo(privateKey, n, 9)| == count;
    count := count + Present(n.urlText);
    assert |PairsUpTo(privateKey, n, 10)| == count;
  }

  /** The `l` pair, present exactly when the notification has a time-to-live, reads back as its whole-minute count. */
  lemma TimeToLiveParameter(privateKey: string, n: Notification)
    requires n.message.Some? && n.device.Some?
    ensures multiset(Names(FormParameters(privateKey, n)))["l"] == Present(n.timeToLive)
    ensures forall p :: p in FormParameters(privateKey, n) && p.name == "l" ==>
      && n.timeToLive.Some?
      && p.value == DecimalString(ToMinutes(n.timeToLive.value))
      && ParseDecimal(p.value) == Some(ToMinutes(n.timeToLive.value))
  {
    FieldParameterCount(privateKey, n, TimeToLive);
    FieldParameterValue(privateKey, n, TimeToLive);
    if n.timeToLive.Some? {
      DecimalRoundTrip(ToMinutes(n.timeToLive.value));
    }
  }

  // ---------------------------------------------------------------------------------------------
  // Lemmas: classification
  // ---------------------------------------------------------------------------------------------

  /** A status code is classified by the table of known codes, and every other code as `Unknown`. */
  lemma ClassifyFollowsStatusTable(code: int)
    ensures Classify(Status(code)) == if code in KnownStatus then KnownStatus[code] else Failure(Unknown)
  {
  }

  /**
   * An unrecognised status code raises a `RuntimeException` inside the `try`, which the generic
   * `catch (Exception)` clause turns into an `Unknown` failure: nothing escapes the call.
   */
  lemma UnknownStatusCaught(code: int)
    requires code !in KnownStatus
    ensures TryBody(Status(code)) == Throw(RuntimeException("Unknown error code: " + DecimalString(code)))
    ensures Classify(Status(code)) == Failure(Unknown)
  {
  }

  // ---------------------------------------------------------------------------------------------
  // An example
  // ---------------------------------------------------------------------------------------------

  /** A notification with a title and a five-minute time-to-live, answered with status 200. */
  lemma FlightDelayedExample(privateKey: string)
    ensures var n := Notification(Some("Flight delayed"), Some("abc123"), Some("Alert"),
                                  None, None, None, None, None, None, Some(Duration(300)));
      FormParameters(privateKey, n) ==
        [Param("k", privateKey), Param("m", "Flight delayed"), Param("d", "abc123"),
         Param("t", "Alert"), Param("l", "5")]
      && Classify(Status(200)) == Success
  {
    var n := Notification(Some("Flight delayed"), Some("abc123"), Some("Alert"),
                          None, None, None, None, None, None, Some(Duration(300)));
    MandatoryPairs(privateKey, n);
    var title := PairsUpTo(privateKey, n, 3) + [Param("t", "Alert")];
    assert PairsUpTo(privateKey, n, 4) == title;
    assert PairsUpTo(privateKey, n, 5) == title;
    assert PairsUpTo(privateKey, n, 6) == title;
    assert PairsUpTo(privateKey, n, 7) == title;
    assert PairsUpTo(privateKey, n, 8) == title;
    assert PairsUpTo(privateKey, n, 9) == title;
    assert PairsUpTo(privateKey, n, 10) == title;
    assert DecimalString(ToMinutes(Duration(300))) == "5";
  }
}
