/** The bot of homework.py: the configuration check run at startup, the
    classification of the API's answer, the two validators, the verdict
    table with the status message it renders, and the one message a poll
    cycle sends. */
module Homework {
  import opened Wrappers
  import opened PyText
  import opened Json
  import opened Exceptions

  /** HOMEWORK_VERDICTS: review status to notification text. */
  const HomeworkVerdicts: map<string, string> := map[
    "approved" := "Работа проверена: ревьюеру всё понравилось. Ура!",
    "reviewing" := "Работа взята на проверку ревьюером.",
    "rejected" := "Работа проверена: у ревьюера есть замечания."
  ]

  /** What every status notification starts with. */
  const StatusPrefix: string := "Изменился статус проверки работы \""

  /** What every failure notification starts with. */
  const FailurePrefix: string := "Сбой в работе программы: "

  // ===========================================================================
  // check_tokens

  /** One configuration value and the name it is reported under. */
  datatype Variable = Variable(name: string, value: Option<string>)

  /** `not var`: an unset variable reads as None, and an empty one is falsy too. */
  predicate Missing(value: Option<string>) {
    value == None || value == Some("")
  }

  /** The three required values, in the order check_tokens goes through them. */
  function Environment(practicum: Option<string>, telegram: Option<string>, chatId: Option<string>): seq<Variable> {
    [Variable("PRACTICUM_TOKEN", practicum),
     Variable("TELEGRAM_TOKEN", telegram),
     Variable("TELEGRAM_CHAT_ID", chatId)]
  }

  /** The names of the missing values, in order. */
  function MissingNames(env: seq<Variable>): seq<string>
    decreases |env|
  {
    if env == [] then []
    else
      var last := env[|env| - 1];
      MissingNames(env[..|env| - 1]) + (if Missing(last.value) then [last.name] else [])
  }

  predicate TokensAvailable(practicum: Option<string>, telegram: Option<string>, chatId: Option<string>) {
    !Missing(practicum) && !Missing(telegram) && !Missing(chatId)
  }

  /** A name is reported exactly when some value under that name is missing. */
  lemma {:induction false} MissingNamesMembership(env: seq<Variable>, name: string)
    ensures name in MissingNames(env) <==>
            exists j :: 0 <= j < |env| && env[j].name == name && Missing(env[j].value)
    decreases |env|
  {
    if env != [] {
      var init := env[..|env| - 1];
      MissingNamesMembership(init, name);
      if name in MissingNames(init) {
        var j :| 0 <= j < |init| && init[j].name == name && Missing(init[j].value);
        assert env[j] == init[j];
      }
      if exists j :: 0 <= j < |env| && env[j].name == name && Missing(env[j].value) {
        var j :| 0 <= j < |env| && env[j].name == name && Missing(env[j].value);
        if j < |init| {
          assert init[j] == env[j];
        }
      }
    }
  }

  /** Nothing is reported exactly when nothing is missing. */
  lemma {:induction false} MissingNamesEmpty(env: seq<Variable>)
    ensures MissingNames(env) == [] <==> forall j :: 0 <= j < |env| ==> !Missing(env[j].value)
    decreases |env|
  {
    if env != [] {
      var init := env[..|env| - 1];
      MissingNamesEmpty(init);
      if MissingNames(env) == [] {
        forall j | 0 <= j < |env| ensures !Missing(env[j].value) {
          if j < |init| { assert env[j] == init[j]; }
        }
      }
    }
  }

  /** For the three required values: each name is reported exactly when its
      value is missing, and nothing is reported exactly when all are there. */
  lemma EnvironmentReports(practicum: Option<string>, telegram: Option<string>, chatId: Option<string>)
    ensures var reported := MissingNames(Environment(practicum, telegram, chatId));
            && (reported == [] <==> TokensAvailable(practicum, telegram, chatId))
            && ("PRACTICUM_TOKEN" in reported <==> Missing(practicum))
            && ("TELEGRAM_TOKEN" in reported <==> Missing(telegram))
            && ("TELEGRAM_CHAT_ID" in reported <==> Missing(chatId))
  {
    var env := Environment(practicum, telegram, chatId);
    assert env[0].value == practicum && env[1].value == telegram && env[2].value == chatId;
    MissingNamesEmpty(env);
    MissingNamesMembership(env, "PRACTICUM_TOKEN");
    MissingNamesMembership(env, "TELEGRAM_TOKEN");
    MissingNamesMembership(env, "TELEGRAM_CHAT_ID");
  }

  /** check_tokens: reports (logs) the name of every missing value, in order,
      and only then answers whether all three are present. */
  method CheckTokens(practicum: Option<string>, telegram: Option<string>, chatId: Option<string>)
    returns (ok: bool, reported: seq<string>)
    ensures ok <==> TokensAvailable(practicum, telegram, chatId)
    ensures reported == MissingNames(Environment(practicum, telegram, chatId))
    ensures ok <==> reported == []
    ensures "PRACTICUM_TOKEN" in reported <==> Missing(practicum)
    ensures "TELEGRAM_TOKEN" in reported <==> Missing(telegram)
    ensures "TELEGRAM_CHAT_ID" in reported <==> Missing(chatId)
  {
    var env := Environment(practicum, telegram, chatId);
    EnvironmentReports(practicum, telegram, chatId);
    MissingNamesEmpty(env);
    reported := [];
    for i := 0 to |env|
      invariant reported == MissingNames(env[..i])
    {
      assert env[..i + 1][..i] == env[..i];
      if Missing(env[i].value) {
        reported := reported + [env[i].name];
      }
    }
    assert env[..|env|] == env;
    for i := 0 to |env|
      invariant forall j :: 0 <= j < i ==> !Missing(env[j].value)
    {
      if Missing(env[i].value) {
        return false, reported;
      }
    }
    ok := true;
  }

  /** The start of main: without all three values the bot stops before it
      polls, raising AbsenceVariables. */
  method Startup(practicum: Option<string>, telegram: Option<string>, chatId: Option<string>)
    returns (r: Outcome<Error>, reported: seq<string>)
    ensures r == Pass <==> TokensAvailable(practicum, telegram, chatId)
    ensures r != Pass ==> r == Fail(AbsenceVariables)
    ensures reported == MissingNames(Environment(practicum, telegram, chatId))
  {
    var ok;
    ok, reported := CheckTokens(practicum, telegram, chatId);
    if !ok {
      return Fail(AbsenceVariables), reported;
    }
    r := Pass;
  }

  // ===========================================================================
  // get_api_answer

  /** What the HTTP request came back with: it raised (with the text of what
      it raised), or it got a status code and a body that decodes as JSON
      (Some) or does not (None). */
  datatype Transport =
    | Failed(cause: string)
    | Responded(statusCode: int, body: Option<Value>)

  /** HTTPStatus.OK */
  const HttpOk: int := 200

  /** get_api_answer, from the point the request has returned or raised: the
      request's own failure first, then the status code, then decoding. */
  function GetApiAnswer(t: Transport): (r: Result<Value, Error>)
    ensures r.Ok? <==> t.Responded? && t.statusCode == HttpOk && t.body.Some?
    ensures r.Ok? ==> r.value == t.body.value
    ensures t.Failed? ==> r == Err(MainRequest(t.cause))
    ensures t.Responded? && t.statusCode != HttpOk ==> r == Err(UnexpectedStatus(t.statusCode))
    ensures t.Responded? && t.statusCode == HttpOk && t.body.None? ==> r == Err(DecodingFailed)
  {
    match t
    case Failed(cause) => Err(MainRequest(cause))
    case Responded(code, body) =>
      if code != HttpOk then Err(UnexpectedStatus(code))
      else if body.None? then Err(DecodingFailed)
      else Ok(body.value)
  }

  // ===========================================================================
  // check_response

  /** The keys an answer may have. */
  const ResponseKeys: set<string> := {"current_date", "homeworks"}

  /** check_response, stated on values: the answer must be a dict, all of its
      keys must be expected ones, and the value under 'homeworks' must be a
      list. Keys that are absent are not an error of the second check. */
  function ValidateResponse(response: Value): (r: Outcome<Error>)
    ensures !response.Object? ==> r == Fail(TypeErrorDict)
    ensures response.Object? ==>
              (r == Fail(MissingDataDict) <==> exists k :: k in response.fields && k !in ResponseKeys)
    ensures r == Pass <==>
              response.Object? && response.fields.Keys <= ResponseKeys &&
              "homeworks" in response.fields && response.fields["homeworks"].List?
    ensures response.Object? && response.fields.Keys <= ResponseKeys ==>
              (r == Fail(TypeErrorList) <==> !Get(response.fields, "homeworks").List?)
    ensures r == Fail(TypeErrorDict) || r == Fail(MissingDataDict) || r == Fail(TypeErrorList) || r == Pass
  {
    if !response.Object? then Fail(TypeErrorDict)
    else if !(response.fields.Keys <= ResponseKeys) then Fail(MissingDataDict)
    else if !Get(response.fields, "homeworks").List? then Fail(TypeErrorList)
    else Pass
  }

  /** check_response as homework.py runs it: a loop over the answer's keys
      that raises at the first unexpected one. */
  method CheckResponse(response: Value) returns (r: Outcome<Error>)
    ensures r == ValidateResponse(response)
  {
    if !response.Object? {
      return Fail(TypeErrorDict);
    }
    var fields := response.fields;
    var remaining := fields.Keys;
    while remaining != {}
      invariant remaining <= fields.Keys
      invariant forall k :: k in fields && k !in remaining ==> k in ResponseKeys
      decreases remaining
    {
      var key :| key in remaining;
      if key !in ResponseKeys {
        return Fail(MissingDataDict);
      }
      remaining := remaining - {key};
    }
    var homework := Get(fields, "homeworks");
    if !homework.List? {
      return Fail(TypeErrorList);
    }
    r := Pass;
  }

  /** The list of records of an answer that passed check_response. */
  function Homeworks(response: Value): seq<Value>
    requires ValidateResponse(response) == Pass
  {
    response.fields["homeworks"].items
  }

  // ===========================================================================
  // parse_status

  /** `homework_status not in HOMEWORK_VERDICTS`, then the lookup. A list or a
      dict cannot be hashed, so the membership test itself raises TypeError. */
  function Verdict(status: Value): (r: Result<string, Error>)
    ensures r.Ok? <==> status.Str? && status.s in HomeworkVerdicts
    ensures r.Ok? ==> r.value == HomeworkVerdicts[status.s]
    ensures status.List? ==> r == Err(Unhashable("list"))
    ensures status.Object? ==> r == Err(Unhashable("dict"))
    ensures !status.List? && !status.Object? && r.Err? ==> r == Err(HomeworkStatus(status))
  {
    match status
    case List(_) => Err(Unhashable("list"))
    case Object(_) => Err(Unhashable("dict"))
    case Str(s) => if s in HomeworkVerdicts then Ok(HomeworkVerdicts[s]) else Err(HomeworkStatus(status))
    case _ => Err(HomeworkStatus(status))
  }

  /** parse_status: a record must be a dict, must have a name (checked first),
      and must carry a known status; it renders as a sentence with the name
      in double quotes followed by the verdict text. */
  function ParseStatus(homework: Value): (r: Result<string, Error>)
    ensures !homework.Object? ==> r == Err(HomeworkErrorDict)
    ensures homework.Object? && "homework_name" !in homework.fields ==> r == Err(HomeworkKey)
    ensures r.Ok? <==>
              homework.Object? && "homework_name" in homework.fields &&
              Get(homework.fields, "status").Str? && Get(homework.fields, "status").s in HomeworkVerdicts
    ensures homework.Object? && "homework_name" in homework.fields &&
            Verdict(Get(homework.fields, "status")).Err? ==>
              r == Err(Verdict(Get(homework.fields, "status")).error)
    ensures r.Ok? ==> StartsWith(r.value, StatusPrefix)
  {
    if !homework.Object? then Err(HomeworkErrorDict)
    else if "homework_name" !in homework.fields then Err(HomeworkKey)
    else
      var name := Get(homework.fields, "homework_name");
      var status := Get(homework.fields, "status");
      match Verdict(status)
      case Err(e) => Err(e)
      case Ok(verdict) => Ok(StatusPrefix + Display(name) + "\". " + verdict)
  }

  // ===========================================================================
  // One iteration of main's loop

  /** The body of main's `try`: fetch, validate, take the first record and
      render it. An empty list raises IndexError at the subscript. */
  function Poll(t: Transport): (r: Result<string, Error>)
    ensures r.Ok? <==>
              && GetApiAnswer(t).Ok? && ValidateResponse(GetApiAnswer(t).value) == Pass
              && |Homeworks(GetApiAnswer(t).value)| > 0
              && ParseStatus(Homeworks(GetApiAnswer(t).value)[0]).Ok?
    ensures r.Ok? ==> StartsWith(r.value, StatusPrefix)
    ensures GetApiAnswer(t).Err? ==> r == Err(GetApiAnswer(t).error)
    ensures GetApiAnswer(t).Ok? && ValidateResponse(GetApiAnswer(t).value).Fail? ==>
              r == Err(ValidateResponse(GetApiAnswer(t).value).error)
    ensures (GetApiAnswer(t).Ok? && ValidateResponse(GetApiAnswer(t).value) == Pass &&
             Homeworks(GetApiAnswer(t).value) == []) ==> r == Err(NoHomeworks)
    ensures (GetApiAnswer(t).Ok? && ValidateResponse(GetApiAnswer(t).value) == Pass &&
             |Homeworks(GetApiAnswer(t).value)| > 0) ==> r == ParseStatus(Homeworks(GetApiAnswer(t).value)[0])
  {
    match GetApiAnswer(t)
    case Err(e) => Err(e)
    case Ok(response) =>
      match ValidateResponse(response)
      case Fail(e) => Err(e)
      case Pass =>
        var homeworks := Homeworks(response);
        if |homeworks| == 0 then Err(NoHomeworks) else ParseStatus(homeworks[0])
  }

  /** The one message a cycle sends: the rendered status when the `try` body
      succeeds, otherwise the failure notice with the error's text. Sending
      never raises (send_message swallows its errors), so the cycle sends
      exactly this one message. */
  function Cycle(t: Transport): (message: string)
    ensures StartsWith(message, StatusPrefix) || StartsWith(message, FailurePrefix)
  {
    match Poll(t)
    case Ok(status) => status
    case Err(e) => FailurePrefix + Text(e)
  }
}
