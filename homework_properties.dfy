/** Properties of the bot that relate several operations: what a status
    message says, that it can be read back, and which single message a poll
    cycle sends for each kind of answer. */
module HomeworkProperties {
  import opened Wrappers
  import opened PyText
  import opened Json
  import opened Exceptions
  import opened Homework

  // ===========================================================================
  // The status message

  /** A rendered status is the fixed sentence around the record's name, ends
      with the verdict text from the table, and contains the name. */
  lemma StatusMessageShape(homework: Value)
    requires ParseStatus(homework).Ok?
    ensures var name := Display(homework.fields["homework_name"]);
            var verdict := HomeworkVerdicts[homework.fields["status"].s];
            var m := ParseStatus(homework).value;
            && m == StatusPrefix + name + "\". " + verdict
            && Contains(m, name)
            && EndsWith(m, verdict)
  {
    var name := Display(homework.fields["homework_name"]);
    var verdict := HomeworkVerdicts[homework.fields["status"].s];
    var m := ParseStatus(homework).value;
    assert m == StatusPrefix + name + "\". " + verdict;
    assert m[|StatusPrefix|..|StatusPrefix| + |name|] == name;
    assert OccursAt(m, name, |StatusPrefix|);
    assert m[|m| - |verdict|..] == verdict;
  }

  /** Each of the three known statuses renders, with its own text; any other
      string status is reported back as unknown. */
  lemma VerdictTable(name: Value, status: string)
    ensures var homework := Object(map["homework_name" := name, "status" := Str(status)]);
            && (status == "approved" ==>
                  ParseStatus(homework) == Ok(StatusPrefix + Display(name) + "\". " +
                                              "Работа проверена: ревьюеру всё понравилось. Ура!"))
            && (status == "reviewing" ==>
                  ParseStatus(homework) == Ok(StatusPrefix + Display(name) + "\". " +
                                              "Работа взята на проверку ревьюером."))
            && (status == "rejected" ==>
                  ParseStatus(homework) == Ok(StatusPrefix + Display(name) + "\". " +
                                              "Работа проверена: у ревьюера есть замечания."))
            && (status !in {"approved", "reviewing", "rejected"} ==>
                  ParseStatus(homework) == Err(HomeworkStatus(Str(status))))
  {
    var homework := Object(map["homework_name" := name, "status" := Str(status)]);
    assert Get(homework.fields, "status") == Str(status);
    assert Get(homework.fields, "homework_name") == name;
  }

  /** Once the name is there, a record whose status is absent, null, a number
      or a boolean, or a string outside the table, fails with HomeworkStatus
      carrying what `homework.get('status')` gave. */
  lemma UnknownStatusFails(homework: Value)
    requires homework.Object? && "homework_name" in homework.fields
    requires var status := Get(homework.fields, "status");
             !status.List? && !status.Object? && !(status.Str? && status.s in HomeworkVerdicts)
    ensures ParseStatus(homework) == Err(HomeworkStatus(Get(homework.fields, "status")))
    ensures "status" !in homework.fields ==> ParseStatus(homework) == Err(HomeworkStatus(Null))
  {
  }

  /** No verdict text is a suffix of another, so the end of a message tells
      which verdict it carries. */
  lemma VerdictFromEnding(m: string, s1: string, s2: string)
    requires s1 in HomeworkVerdicts && s2 in HomeworkVerdicts
    requires EndsWith(m, HomeworkVerdicts[s1]) && EndsWith(m, HomeworkVerdicts[s2])
    ensures s1 == s2
  {
    var v1, v2 := HomeworkVerdicts[s1], HomeworkVerdicts[s2];
    assert m[|m| - 1] == v1[|v1| - 1] && m[|m| - 2] == v1[|v1| - 2] by {
      assert m[|m| - |v1|..] == v1;
    }
    assert m[|m| - 1] == v2[|v2| - 1] && m[|m| - 2] == v2[|v2| - 2] by {
      assert m[|m| - |v2|..] == v2;
    }
  }

  /** A status message can be read back: two records that render to the same
      message have the same status and names that display the same. */
  lemma StatusMessageDeterminesRecord(h1: Value, h2: Value)
    requires ParseStatus(h1).Ok? && ParseStatus(h1) == ParseStatus(h2)
    ensures h1.fields["status"] == h2.fields["status"]
    ensures Display(h1.fields["homework_name"]) == Display(h2.fields["homework_name"])
  {
    var m := ParseStatus(h1).value;
    StatusMessageShape(h1);
    StatusMessageShape(h2);
    var s1, s2 := h1.fields["status"].s, h2.fields["status"].s;
    VerdictFromEnding(m, s1, s2);
    FrameDeterminesMiddle(StatusPrefix, Display(h1.fields["homework_name"]),
                          Display(h2.fields["homework_name"]), "\". ", HomeworkVerdicts[s1]);
  }

  /** Text between the same fixed pieces is determined by the whole. */
  lemma FrameDeterminesMiddle(p: string, a: string, b: string, q: string, v: string)
    requires p + a + q + v == p + b + q + v
    ensures a == b
  {
    var m := p + a + q + v;
    assert |a| == |b|;
    assert a == m[|p|..|p| + |a|];
    assert b == (p + b + q + v)[|p|..|p| + |b|];
  }

  // ===========================================================================
  // One poll cycle

  /** The cycle reaches a status message: the request succeeded with 200 and
      a JSON body, the answer passed check_response, its list is not empty,
      and its first record parses. */
  predicate Delivered(t: Transport) {
    && t.Responded? && t.statusCode == HttpOk && t.body.Some?
    && ValidateResponse(t.body.value) == Pass
    && |Homeworks(t.body.value)| > 0
    && ParseStatus(Homeworks(t.body.value)[0]).Ok?
  }

  /** The first characters of the two kinds of message differ. */
  lemma PrefixesDisjoint(m: string)
    ensures !(StartsWith(m, StatusPrefix) && StartsWith(m, FailurePrefix))
  {
    if StartsWith(m, StatusPrefix) {
      assert m[0] == m[..|StatusPrefix|][0] == 'И';
      assert m[..|FailurePrefix|][0] != FailurePrefix[0];
    }
  }

  /** The one message of a cycle is the rendered status of `homeworks[0]`
      when everything succeeds, and otherwise the failure notice with the
      text of whatever was raised; which of the two it is can be told from
      its beginning. */
  lemma CycleMessage(t: Transport)
    ensures Delivered(t) ==> Cycle(t) == ParseStatus(Homeworks(t.body.value)[0]).value
    ensures !Delivered(t) ==> Poll(t).Err? && Cycle(t) == FailurePrefix + Text(Poll(t).error)
    ensures StartsWith(Cycle(t), FailurePrefix) <==> !Delivered(t)
  {
    if Delivered(t) {
      PrefixesDisjoint(Cycle(t));
    } else {
      var m := Cycle(t);
      assert m[..|FailurePrefix|] == FailurePrefix;
    }
  }

  /** What the failure notice says for each way a cycle can fail: the
      request raised, the status was not 200, the body was not JSON, the
      answer failed check_response, its list was empty, or its first record
      failed parse_status. */
  lemma CycleFailureText(t: Transport)
    ensures t.Failed? ==>
              Cycle(t) == FailurePrefix + "Ошибка при запросе к основному API: " + t.cause
    ensures t.Responded? && t.statusCode != HttpOk ==>
              Cycle(t) == FailurePrefix + "Не ожидаемый HTTP статус " + Decimal(t.statusCode)
    ensures t.Responded? && t.statusCode == HttpOk && t.body.None? ==>
              Cycle(t) == FailurePrefix + "Не удалось расшифровать JSON"
    ensures t.Responded? && t.statusCode == HttpOk && t.body.Some? && ValidateResponse(t.body.value).Fail? ==>
              Cycle(t) == FailurePrefix + Text(ValidateResponse(t.body.value).error)
    ensures t.Responded? && t.statusCode == HttpOk && t.body.Some? && ValidateResponse(t.body.value) == Pass &&
            Homeworks(t.body.value) == [] ==>
              Cycle(t) == FailurePrefix + "list index out of range"
    ensures t.Responded? && t.statusCode == HttpOk && t.body.Some? && ValidateResponse(t.body.value) == Pass &&
            |Homeworks(t.body.value)| > 0 && ParseStatus(Homeworks(t.body.value)[0]).Err? ==>
              Cycle(t) == FailurePrefix + Text(ParseStatus(Homeworks(t.body.value)[0]).error)
  {
  }

  /** Only the first record counts: two valid answers whose lists start with
      the same record give the same message. */
  lemma CycleReadsFirstRecordOnly(r1: Value, r2: Value)
    requires ValidateResponse(r1) == Pass && ValidateResponse(r2) == Pass
    requires |Homeworks(r1)| > 0 && |Homeworks(r2)| > 0 && Homeworks(r1)[0] == Homeworks(r2)[0]
    ensures Cycle(Responded(HttpOk, Some(r1))) == Cycle(Responded(HttpOk, Some(r2)))
  {
  }

  // ===========================================================================
  // Examples

  /** The answer with one approved record named hw1. */
  lemma ApprovedExample()
    ensures var record := Object(map["homework_name" := Str("hw1"), "status" := Str("approved")]);
            var answer := Object(map["current_date" := Int(1700000000), "homeworks" := List([record])]);
            var m := Cycle(Responded(200, Some(answer)));
            && m == StatusPrefix + "hw1" + "\". " + "Работа проверена: ревьюеру всё понравилось. Ура!"
            && Contains(m, "hw1")
            && EndsWith(m, "Работа проверена: ревьюеру всё понравилось. Ура!")
  {
    var record := Object(map["homework_name" := Str("hw1"), "status" := Str("approved")]);
    var answer := Object(map["current_date" := Int(1700000000), "homeworks" := List([record])]);
    assert answer.fields.Keys == ResponseKeys;
    assert Homeworks(answer) == [record];
    assert Get(record.fields, "status") == Str("approved");
    assert Get(record.fields, "homework_name") == Str("hw1");
    assert Verdict(Str("approved")) == Ok("Работа проверена: ревьюеру всё понравилось. Ура!");
    StatusMessageShape(record);
  }

  /** An answer with an empty list fails at `homeworks[0]`. */
  lemma EmptyListExample()
    ensures var answer := Object(map["current_date" := Int(1700000000), "homeworks" := List([])]);
            Cycle(Responded(200, Some(answer))) == FailurePrefix + "list index out of range"
  {
    var answer := Object(map["current_date" := Int(1700000000), "homeworks" := List([])]);
    assert answer.fields.Keys == ResponseKeys;
    assert Homeworks(answer) == [];
    assert Poll(Responded(200, Some(answer))) == Err(NoHomeworks);
  }

  /** A record without a name fails with HomeworkKey, shown within quotes
      since HomeworkKey is a KeyError. */
  lemma MissingNameExample()
    ensures var answer := Object(map["homeworks" := List([Object(map["status" := Str("approved")])])]);
            Cycle(Responded(200, Some(answer))) ==
              FailurePrefix + "'" + HomeworkKeyMessage + "'"
  {
    var record := Object(map["status" := Str("approved")]);
    var answer := Object(map["homeworks" := List([record])]);
    assert answer.fields.Keys == {"homeworks"};
    assert ValidateResponse(answer) == Pass;
    assert Homeworks(answer) == [record];
    assert record.fields.Keys == {"status"};
    assert ParseStatus(record) == Err(HomeworkKey);
    assert Poll(Responded(200, Some(answer))) == Err(HomeworkKey);
    HomeworkKeyText();
  }

  /** A record whose status is not in the table, shown within quotes. */
  lemma UnknownStatusExample()
    ensures var answer := Object(map["homeworks" := List([Object(map["homework_name" := Str("hw1"),
                                                                     "status" := Str("pending")])])]);
            Cycle(Responded(200, Some(answer))) ==
              FailurePrefix + "'" + "Отсутствует статус работы " + "pending" + "'"
  {
    PendingPoll();
    PendingText();
  }

  lemma PendingPoll()
    ensures var answer := Object(map["homeworks" := List([Object(map["homework_name" := Str("hw1"),
                                                                     "status" := Str("pending")])])]);
            Poll(Responded(200, Some(answer))) == Err(HomeworkStatus(Str("pending")))
  {
    var record := Object(map["homework_name" := Str("hw1"), "status" := Str("pending")]);
    var answer := Object(map["homeworks" := List([record])]);
    assert answer.fields.Keys <= ResponseKeys;
    assert Homeworks(answer) == [record];
    assert Get(record.fields, "status") == Str("pending");
    assert "pending" !in HomeworkVerdicts;
    assert ParseStatus(record) == Err(HomeworkStatus(Str("pending")));
  }

  lemma PendingText()
    ensures Text(HomeworkStatus(Str("pending"))) == "'" + "Отсутствует статус работы " + "pending" + "'"
  {
    assert PlainText("pending");
    HomeworkStatusText("pending");
  }

  /** A 503 answer fails on its status, whatever its body. */
  lemma ServiceUnavailableExample(body: Option<Value>)
    ensures Cycle(Responded(503, body)) == FailurePrefix + "Не ожидаемый HTTP статус " + "503"
  {
    assert NatDigits(503) == "503" by {
      assert NatDigits(50) == "50";
    }
  }

  /** An answer that is not a dict, and answers with an unexpected key, with
      no 'homeworks', and with an empty list. */
  lemma CheckResponseExamples()
    ensures ValidateResponse(List([])) == Fail(TypeErrorDict)
    ensures ValidateResponse(Object(map["homeworks" := List([]), "extra" := Null])) == Fail(MissingDataDict)
    ensures ValidateResponse(Object(map[])) == Fail(TypeErrorList)
    ensures ValidateResponse(Object(map["current_date" := Int(0)])) == Fail(TypeErrorList)
    ensures ValidateResponse(Object(map["homeworks" := Object(map[])])) == Fail(TypeErrorList)
    ensures ValidateResponse(Object(map["homeworks" := List([])])) == Pass
  {
    assert "extra" !in ResponseKeys;
  }
}
