/** The message bridge of `AerosyncEmbeddedView` (aerosync_embedded_view.swift,
    `Coordinator`): each script message becomes an ordered list of effects.
    The launch notification is posted asynchronously on the main queue after
    the callback; it is modelled as the effect that follows the callback. */
module EmbeddedBridge {
  import opened Wrappers
  import opened Json
  import opened Effects
  import EmbeddedUrl

  /** What the coordinator copies from the view when it is created. */
  datatype Coordinator = Coordinator(token: string, env: string, configurationId: Option<string>)

  /** `Coordinator.init`: token, environment and configuration id are
      copied from the view. */
  function MakeCoordinator(v: EmbeddedUrl.EmbeddedView): Coordinator {
    Coordinator(v.token, v.env, v.configurationId)
  }

  /** The notification object: the state code and the captured
      configuration, a missing configuration id written as "". */
  function LaunchRecord(c: Coordinator, stateCode: string): LaunchData {
    LaunchData(stateCode, c.token, c.env, c.configurationId.GetOr(""))
  }

  /** The script-message handler names registered on the content
      controller. */
  const Registered: set<string> := {"onEvent", "onBankClick", "onError", "messageHandler", "logHandler"}

  /** `dict["payload"] as? [String: Any]`, then `["stateCode"] as? String`. */
  function PayloadStateCode(fields: map<string, Json>): Option<string> {
    match ObjectField(fields, "payload")
    case Some(payload) => StringField(payload, "stateCode")
    case None => None
  }

  /** Strategy (a): the body is a dictionary with a payload dictionary. */
  function FromPayload(body: Json): Option<string> {
    match AsObject(body)
    case Some(fields) => PayloadStateCode(fields)
    case None => None
  }

  /** Strategy (b): the body is a string holding such a dictionary as JSON. */
  function FromEncodedString(parse: Parser, body: Json): Option<string> {
    match AsString(body)
    case Some(text) =>
      (match ParseObject(parse, text)
       case Some(fields) => PayloadStateCode(fields)
       case None => None)
    case None => None
  }

  /** Strategy (c): the body is a dictionary with a top-level state code. */
  function FromTopLevel(body: Json): Option<string> {
    match AsObject(body)
    case Some(fields) => StringField(fields, "stateCode")
    case None => None
  }

  /** Where a state code may sit, read directly off the body: under
      `payload` of a dictionary body, under `payload` of the dictionary a
      string body parses to, or at the top of a dictionary body that has no
      string code under `payload`. */
  ghost predicate CodeAt(parse: Parser, body: Json, code: string) {
    || (&& body.JObj? && "payload" in body.fields && body.fields["payload"].JObj?
        && "stateCode" in body.fields["payload"].fields
        && body.fields["payload"].fields["stateCode"] == JStr(code))
    || (&& body.JStr? && parse(body.s).Some? && parse(body.s).value.JObj?
        && var f := parse(body.s).value.fields;
           "payload" in f && f["payload"].JObj? && "stateCode" in f["payload"].fields
           && f["payload"].fields["stateCode"] == JStr(code))
    || (&& body.JObj? && "stateCode" in body.fields && body.fields["stateCode"] == JStr(code)
        && !(&& "payload" in body.fields && body.fields["payload"].JObj?
             && "stateCode" in body.fields["payload"].fields
             && body.fields["payload"].fields["stateCode"].JStr?))
  }

  /** The state code of a bank click: the three strategies in order, the
      first that finds a string winning. It finds exactly the codes the body
      holds in one of the places `CodeAt` lists, so a found code is always a
      string taken from the body (or from the JSON it encodes), and nothing
      is found when no place holds one. */
  function ExtractStateCode(parse: Parser, body: Json): (r: Option<string>)
    ensures r.Some? ==> CodeAt(parse, body, r.value)
    ensures forall code :: CodeAt(parse, body, code) ==> r == Some(code)
  {
    var a := FromPayload(body);
    if a.Some? then a
    else
      var b := FromEncodedString(parse, body);
      if b.Some? then b else FromTopLevel(body)
  }

  /** At most one place matches: a dictionary body is never parsed, a string
      body is only parsed, and for a dictionary the payload code shadows the
      top-level one. */
  lemma ExtractByShape(parse: Parser, body: Json)
    ensures body.JStr? ==> ExtractStateCode(parse, body) == FromEncodedString(parse, body)
    ensures body.JObj? && FromPayload(body).Some? ==> ExtractStateCode(parse, body) == FromPayload(body)
    ensures body.JObj? && FromPayload(body).None? ==> ExtractStateCode(parse, body) == FromTopLevel(body)
    ensures !body.JStr? && !body.JObj? ==> ExtractStateCode(parse, body) == None
  {
  }

  /** First match wins: a dictionary carrying both a payload code and a
      different top-level code yields the payload code. */
  lemma PayloadBeatsTopLevel(parse: Parser, a: string, b: string)
    ensures ExtractStateCode(parse, JObj(map["payload" := JObj(map["stateCode" := JStr(a)]),
                                           "stateCode" := JStr(b)]))
         == Some(a)
  {
  }

  /** `handleBankClickMessage`: the `onBankClick` callback always receives
      the raw body, once; a launch record follows exactly when a state code
      was extracted. */
  function HandleBankClick(c: Coordinator, parse: Parser, body: Json): (effects: seq<Effect>)
    ensures |effects| >= 1 && effects[0] == Invoke(OnBankClick, body)
    ensures CallbackCount(effects) == 1
    ensures LaunchRecords(effects)
         == match ExtractStateCode(parse, body)
            case Some(code) => [LaunchRecord(c, code)]
            case None => []
    ensures |effects| == 1 + |LaunchRecords(effects)|
    ensures forall i :: 1 <= i < |effects| ==> effects[i].Launch?
  {
    var click := Invoke(OnBankClick, body);
    match ExtractStateCode(parse, body)
    case Some(code) =>
      CountsOfTwo(click, Launch(LaunchRecord(c, code)));
      [click, Launch(LaunchRecord(c, code))]
    case None =>
      CountsOfOne(click);
      [click]
  }

  /** The bank click whose body is the JSON text of a dictionary launches
      the same record as the dictionary itself, whenever the dictionary has
      a code under `payload`. */
  lemma EncodedMatchesStructured(c: Coordinator, parse: Parser, text: string, fields: map<string, Json>)
    requires parse(text) == Some(JObj(fields))
    requires PayloadStateCode(fields).Some?
    ensures LaunchRecords(HandleBankClick(c, parse, JStr(text)))
         == LaunchRecords(HandleBankClick(c, parse, JObj(fields)))
         == [LaunchRecord(c, PayloadStateCode(fields).value)]
  {
  }

  /** Strategy (c) applies to dictionaries only: the JSON text of a
      dictionary with just a top-level code launches nothing, although the
      dictionary itself would. */
  lemma TopLevelOnlyForDictionaries(c: Coordinator, parse: Parser, text: string, code: string)
    requires parse(text) == Some(JObj(map["stateCode" := JStr(code)]))
    ensures LaunchRecords(HandleBankClick(c, parse, JStr(text))) == []
    ensures LaunchRecords(HandleBankClick(c, parse, JObj(map["stateCode" := JStr(code)])))
         == [LaunchRecord(c, code)]
  {
  }

  /** The envelope of a `messageHandler` message: its string `type` and the
      whole dictionary. None when the body is not a string, does not parse,
      parses to something other than a dictionary, or has no string
      `type`. */
  function DecodeEnvelope(parse: Parser, body: Json): (r: Option<(string, map<string, Json>)>)
    ensures r.Some? <==>
      && body.JStr? && parse(body.s).Some? && parse(body.s).value.JObj?
      && "type" in parse(body.s).value.fields && parse(body.s).value.fields["type"].JStr?
    ensures r.Some? ==>
      parse(body.s) == Some(JObj(r.value.1)) && r.value.1["type"] == JStr(r.value.0)
  {
    match AsString(body)
    case None => None
    case Some(text) =>
      match ParseObject(parse, text)
      case None => None
      case Some(fields) =>
        match StringField(fields, "type")
        case None => None
        case Some(kind) => Some((kind, fields))
  }

  /** `handleGenericMessage`: "widgetBankClick" hands the inner payload to
      `onBankClick` and launches, when the payload is a dictionary with a
      string code; "widgetError" hands the payload, whatever it is, to
      `onError`; every other message does nothing. */
  function HandleGeneric(c: Coordinator, parse: Parser, body: Json): (effects: seq<Effect>)
    ensures DecodeEnvelope(parse, body).None? ==> effects == []
    ensures CallbackCount(effects) <= 1 && |effects| <= 2
    ensures DecodeEnvelope(parse, body).Some? ==>
      var (kind, fields) := DecodeEnvelope(parse, body).value;
      && (kind != "widgetBankClick" && kind != "widgetError" ==> effects == [])
      && (kind == "widgetError" ==>
            effects == if "payload" in fields then [Invoke(OnError, fields["payload"])] else [])
      && (kind == "widgetBankClick" ==>
            (effects != [] <==>
               "payload" in fields && fields["payload"].JObj?
               && "stateCode" in fields["payload"].fields
               && fields["payload"].fields["stateCode"].JStr?)
            && (effects != [] ==>
                  effects == [Invoke(OnBankClick, fields["payload"]),
                              Launch(LaunchRecord(c, fields["payload"].fields["stateCode"].s))]))
  {
    match DecodeEnvelope(parse, body)
    case None => []
    case Some((kind, fields)) =>
      if kind == "widgetBankClick" then
        match ObjectField(fields, "payload")
        case None => []
        case Some(payload) =>
          match StringField(payload, "stateCode")
          case None => []
          case Some(code) =>
            CountsOfTwo(Invoke(OnBankClick, JObj(payload)), Launch(LaunchRecord(c, code)));
            [Invoke(OnBankClick, JObj(payload)), Launch(LaunchRecord(c, code))]
      else if kind == "widgetError" then
        if "payload" in fields then
          CountsOfOne(Invoke(OnError, fields["payload"]));
          [Invoke(OnError, fields["payload"])]
        else []
      else []
  }

  /** A "widgetBankClick" envelope and an `onBankClick` message whose body
      wraps the same payload launch the same record; they differ only in
      what the callback receives: the inner payload for the envelope, the
      whole body for the direct handler. */
  lemma EnvelopeMatchesChannel(c: Coordinator, parse: Parser, text: string,
                                 envelope: map<string, Json>, payload: map<string, Json>, code: string)
    requires parse(text) == Some(JObj(envelope))
    requires "type" in envelope && envelope["type"] == JStr("widgetBankClick")
    requires "payload" in envelope && envelope["payload"] == JObj(payload)
    requires "stateCode" in payload && payload["stateCode"] == JStr(code)
    ensures HandleGeneric(c, parse, JStr(text)) == [Invoke(OnBankClick, JObj(payload)), Launch(LaunchRecord(c, code))]
    ensures HandleBankClick(c, parse, JObj(map["payload" := JObj(payload)]))
         == [Invoke(OnBankClick, JObj(map["payload" := JObj(payload)])), Launch(LaunchRecord(c, code))]
  {
  }

  /** `userContentController(_:didReceive:)`: switch on the handler name. */
  function Dispatch(c: Coordinator, parse: Parser, m: Message): (effects: seq<Effect>)
    ensures m.name !in Registered || m.name == "logHandler" ==> effects == []
    ensures m.name == "onEvent" ==> effects == [Invoke(OnLoad, m.body)]
    ensures m.name == "onError" ==> effects == [Invoke(OnError, m.body)]
    ensures m.name == "onBankClick" ==> effects == HandleBankClick(c, parse, m.body)
    ensures m.name == "messageHandler" ==> effects == HandleGeneric(c, parse, m.body)
    ensures CallbackCount(effects) <= 1
    ensures |LaunchRecords(effects)| <= 1
    ensures forall d :: d in LaunchRecords(effects) ==>
      d.token == c.token && d.env == c.env && d.configurationId == c.configurationId.GetOr("")
    ensures forall i :: 0 <= i < |effects| && effects[i].Launch? ==>
      i > 0 && effects[i - 1].Invoke? && effects[i - 1].callback == OnBankClick
    ensures SetDismiss !in effects
  {
    match m.name
    case "messageHandler" => HandleGeneric(c, parse, m.body)
    case "onEvent" =>
      CountsOfOne(Invoke(OnLoad, m.body));
      [Invoke(OnLoad, m.body)]
    case "onBankClick" => HandleBankClick(c, parse, m.body)
    case "onError" =>
      CountsOfOne(Invoke(OnError, m.body));
      [Invoke(OnError, m.body)]
    case "logHandler" => []
    case _ => []
  }

  /** A date body (a JavaScript `Date` posted by the page) is handed on
      unchanged: `onEvent` and `onError` forward it, and a bank click
      forwards it without launching, since no cast accepts a date. */
  lemma DateBodies(c: Coordinator, parse: Parser, t: int)
    ensures Dispatch(c, parse, Message("onEvent", JDate(t))) == [Invoke(OnLoad, JDate(t))]
    ensures Dispatch(c, parse, Message("onError", JDate(t))) == [Invoke(OnError, JDate(t))]
    ensures Dispatch(c, parse, Message("onBankClick", JDate(t))) == [Invoke(OnBankClick, JDate(t))]
    ensures Dispatch(c, parse, Message("messageHandler", JDate(t))) == []
  {
  }

  /** `webView(_:didFinish:)`: `onLoad` receives the page address, or ""
      when the view has none. */
  function DidFinish(pageUrl: Option<string>): (effects: seq<Effect>)
    ensures CallbackCount(effects) == 1 && LaunchRecords(effects) == []
    ensures pageUrl.Some? ==> effects == [Invoke(OnLoad, JStr(pageUrl.value))]
    ensures pageUrl.None? ==> effects == [Invoke(OnLoad, JStr(""))]
  {
    CountsOfOne(Invoke(OnLoad, JStr(pageUrl.GetOr(""))));
    [Invoke(OnLoad, JStr(pageUrl.GetOr("")))]
  }

  /** The effects of a sequence of messages handled one after another. */
  function Run(c: Coordinator, parse: Parser, msgs: seq<Message>): seq<Effect> {
    if |msgs| == 0 then [] else Dispatch(c, parse, msgs[0]) + Run(c, parse, msgs[1..])
  }

  /** The state code a message resolves, if any: a bank click on the
      `onBankClick` handler, or a "widgetBankClick" envelope whose payload
      holds one. */
  function ResolvedCode(parse: Parser, m: Message): Option<string> {
    if m.name == "onBankClick" then ExtractStateCode(parse, m.body)
    else if m.name == "messageHandler" then
      match DecodeEnvelope(parse, m.body)
      case Some((kind, fields)) =>
        if kind == "widgetBankClick" then PayloadStateCode(fields) else None
      case None => None
    else None
  }

  /** The codes of the messages that resolve one, in arrival order. */
  function ResolvedCodes(parse: Parser, msgs: seq<Message>): seq<string> {
    if |msgs| == 0 then []
    else
      (match ResolvedCode(parse, msgs[0]) case Some(code) => [code] case None => [])
      + ResolvedCodes(parse, msgs[1..])
  }

  /** The launch records of one message: one for a resolved code, none
      otherwise. */
  lemma DispatchLaunches(c: Coordinator, parse: Parser, m: Message)
    ensures LaunchRecords(Dispatch(c, parse, m))
         == match ResolvedCode(parse, m)
            case Some(code) => [LaunchRecord(c, code)]
            case None => []
  {
    if m.name == "messageHandler" {
      var effects := HandleGeneric(c, parse, m.body);
      if effects != [] && DecodeEnvelope(parse, m.body).value.0 == "widgetBankClick" {
        assert LaunchRecords(effects) == [effects[1].data];
      }
    }
  }

  /** A coordinator made from a view stamps every launch with that view's
      token, environment and configuration id, "" standing for a missing
      one. */
  lemma CoordinatorLaunches(v: EmbeddedUrl.EmbeddedView, parse: Parser, m: Message)
    ensures LaunchRecords(Dispatch(MakeCoordinator(v), parse, m))
         == match ResolvedCode(parse, m)
            case Some(code) => [LaunchData(code, v.token, v.env, v.configurationId.GetOr(""))]
            case None => []
  {
    DispatchLaunches(MakeCoordinator(v), parse, m);
  }

  /** The launch records of the given codes, in order. */
  function RecordsOf(c: Coordinator, codes: seq<string>): (r: seq<LaunchData>)
    ensures |r| == |codes|
    ensures forall i :: 0 <= i < |codes| ==> r[i] == LaunchRecord(c, codes[i])
  {
    seq(|codes|, i requires 0 <= i < |codes| => LaunchRecord(c, codes[i]))
  }

  /** The records of a code list headed by one message's codes. */
  lemma RecordsOfAppend(c: Coordinator, head: seq<string>, rest: seq<string>)
    ensures RecordsOf(c, head + rest) == RecordsOf(c, head) + RecordsOf(c, rest)
  {
  }

  /** One step of a run: the first message's records, then the rest's. */
  lemma RunLaunchStep(c: Coordinator, parse: Parser, msgs: seq<Message>)
    requires |msgs| > 0
    ensures LaunchRecords(Run(c, parse, msgs))
         == RecordsOf(c, match ResolvedCode(parse, msgs[0]) case Some(code) => [code] case None => [])
            + LaunchRecords(Run(c, parse, msgs[1..]))
  {
    CountsAppend(Dispatch(c, parse, msgs[0]), Run(c, parse, msgs[1..]));
    DispatchLaunches(c, parse, msgs[0]);
  }

  /** Over a run, launch records appear once per resolved code, in the
      order the messages arrived, each carrying the captured
      configuration. */
  lemma {:induction false} RunLaunchOrder(c: Coordinator, parse: Parser, msgs: seq<Message>)
    ensures LaunchRecords(Run(c, parse, msgs)) == RecordsOf(c, ResolvedCodes(parse, msgs))
  {
    if |msgs| > 0 {
      RunLaunchStep(c, parse, msgs);
      RunLaunchOrder(c, parse, msgs[1..]);
      RecordsOfAppend(c, match ResolvedCode(parse, msgs[0]) case Some(code) => [code] case None => [],
                      ResolvedCodes(parse, msgs[1..]));
    }
  }

  /** No message invokes more than one callback. */
  lemma {:induction false} RunCallbacks(c: Coordinator, parse: Parser, msgs: seq<Message>)
    ensures CallbackCount(Run(c, parse, msgs)) <= |msgs|
  {
    if |msgs| > 0 {
      CountsAppend(Dispatch(c, parse, msgs[0]), Run(c, parse, msgs[1..]));
      RunCallbacks(c, parse, msgs[1..]);
    }
  }

  /** The messages of a run that are not console log lines. */
  function WithoutLog(msgs: seq<Message>): (r: seq<Message>)
    ensures |r| <= |msgs|
    ensures forall m :: m in r <==> m in msgs && m.name != "logHandler"
  {
    if |msgs| == 0 then []
    else (if msgs[0].name == "logHandler" then [] else [msgs[0]]) + WithoutLog(msgs[1..])
  }

  /** Console log lines are inert: dropping them from a run changes
      nothing, so forwarding them can never loop back into the page. */
  lemma {:induction false} LogIsInert(c: Coordinator, parse: Parser, msgs: seq<Message>)
    ensures Run(c, parse, WithoutLog(msgs)) == Run(c, parse, msgs)
  {
    if |msgs| > 0 {
      LogIsInert(c, parse, msgs[1..]);
      var rest := WithoutLog(msgs[1..]);
      if msgs[0].name == "logHandler" {
        assert WithoutLog(msgs) == rest;
      } else {
        assert WithoutLog(msgs) == [msgs[0]] + rest;
        assert ([msgs[0]] + rest)[1..] == rest;
      }
    }
  }
}
