/** Everything the bot can raise, at startup or in a poll cycle, and the text `str(error)` gives for
    each: the cycle's failure notice is built from that text. Most are the
    classes of exceptions.py; the rest are raised by Python or `requests`. */
module Exceptions {
  import opened PyText
  import opened Json

  datatype Error =
    | AbsenceVariables          // startup: a configuration value is missing
    | MainRequest(cause: string) // the request itself raised; cause is str() of what it raised
    | UnexpectedStatus(code: int) // requests.RequestException for a status other than 200
    | DecodingFailed            // the body is not JSON
    | TypeErrorDict             // the answer is not a dict
    | MissingDataDict           // the answer has a key other than the two expected
    | TypeErrorList             // 'homeworks' is absent or not a list
    | HomeworkErrorDict         // the record is not a dict (see Text)
    | HomeworkKey               // the record has no 'homework_name'
    | HomeworkStatus(status: Value) // the status (None when absent) is not in the verdict table
    | Unhashable(typeName: string)  // TypeError: a list or dict status cannot be looked up in a dict
    | NoHomeworks               // IndexError: 'homeworks' is an empty list

  const HomeworkKeyMessage: string := "В словаре " + "homework " + "отсутсвует " + "ключ " + "homework_name"

  /** `str(error)` for each error, with the message it is raised with. */
  function Text(e: Error): (t: string)
  {
    match e
    case AbsenceVariables => "Отсутствует токен"
    case MainRequest(cause) => "Ошибка при запросе к основному API: " + cause
    case UnexpectedStatus(code) => "Не ожидаемый HTTP статус " + Decimal(code)
    case DecodingFailed => "Не удалось расшифровать JSON"
    case TypeErrorDict =>
      "При запросе в формате JSON переданные в response данные не соответствую типу в виде словаря"
    case MissingDataDict => "Отсутствуют данные \"current_date\" или \"homeworks\" в API"
    case TypeErrorList => "Значение ключа homeworks не соответствуют типу данных в виде списка"
    // homework.py raises exceptions.HomeworkErrorDict, a class exceptions.py
    // does not define: evaluating the name raises AttributeError instead.
    case HomeworkErrorDict => "module 'exceptions' has no attribute 'HomeworkErrorDict'"
    // HomeworkKey and HomeworkStatus derive from KeyError, whose str() is the
    // repr() of its message, quotes included.
    case HomeworkKey => StrRepr(HomeworkKeyMessage)
    case HomeworkStatus(status) => StrRepr("Отсутствует статус работы " + Display(status))
    case Unhashable(typeName) => "unhashable type: '" + typeName + "'"
    case NoHomeworks => "list index out of range"
  }

  /** The shape of each error text that depends on what was raised: a
      KeyError's text is quoted at both ends with the same quote, and the
      other texts end with what was raised. */
  lemma TextShape(e: Error)
    ensures e.HomeworkKey? || e.HomeworkStatus? ==>
              var t := Text(e);
              2 <= |t| && t[0] == t[|t| - 1] && (t[0] == '\'' || t[0] == '"')
    ensures e.MainRequest? ==> EndsWith(Text(e), e.cause)
    ensures e.UnexpectedStatus? ==> EndsWith(Text(e), Decimal(e.code))
    ensures e.Unhashable? ==> EndsWith(Text(e), e.typeName + "'")
  {
    match e
    case MainRequest(cause) =>
      assert Text(e) == "Ошибка при запросе к основному API: " + cause;
      EndsWithConcat("Ошибка при запросе к основному API: ", cause);
    case UnexpectedStatus(code) =>
      assert Text(e) == "Не ожидаемый HTTP статус " + Decimal(code);
      EndsWithConcat("Не ожидаемый HTTP статус ", Decimal(code));
    case Unhashable(typeName) =>
      assert Text(e) == "unhashable type: '" + (typeName + "'");
      EndsWithConcat("unhashable type: '", typeName + "'");
    case HomeworkKey =>
      assert Text(e) == StrRepr(HomeworkKeyMessage);
    case HomeworkStatus(status) =>
      assert Text(e) == StrRepr("Отсутствует статус работы " + Display(status));
    case _ =>
  }

  /** The fixed part of the two KeyError messages needs no escaping. */
  lemma KeyMessagesPlain()
    ensures PlainText(HomeworkKeyMessage)
    ensures PlainText("Отсутствует статус работы ")
  {
    PlainConcat("В словаре ", "homework ");
    PlainConcat("В словаре " + "homework ", "отсутсвует ");
    PlainConcat("В словаре " + "homework " + "отсутсвует ", "ключ ");
    PlainConcat("В словаре " + "homework " + "отсутсвует " + "ключ ", "homework_name");
  }

  /** `str()` of HomeworkKey is its message between single quotes. */
  lemma HomeworkKeyText()
    ensures Text(HomeworkKey) == "'" + HomeworkKeyMessage + "'"
  {
    KeyMessagesPlain();
    PlainStrRepr(HomeworkKeyMessage);
  }

  /** `str()` of HomeworkStatus for a string status that needs no escaping:
      the message with the status, between single quotes. */
  lemma HomeworkStatusText(status: string)
    requires PlainText(status)
    ensures Text(HomeworkStatus(Str(status))) == "'" + "Отсутствует статус работы " + status + "'"
  {
    assert Text(HomeworkStatus(Str(status))) == StrRepr("Отсутствует статус работы " + status);
    KeyMessagesPlain();
    PlainConcat("Отсутствует статус работы ", status);
    PlainStrRepr("Отсутствует статус работы " + status);
  }
}
