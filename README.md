# homework_bot: a Dafny model of the bot's validation and message layer

homework_bot polls the Practicum homework-status API every 600 seconds. It checks the answer and sends one Telegram message per cycle. That message is either the new status of the most recent homework or a failure notice. This project models the decision logic of homework.py and proves its properties. The HTTP request, the bot client and the environment are left out.

- **Configuration check** (`check_tokens`). Three values are required: `PRACTICUM_TOKEN`, `TELEGRAM_TOKEN` and `TELEGRAM_CHAT_ID`. A value is missing when it is unset or empty (Python's `not var`). The check first reports the name of every missing value, in order. Only then does it answer false. At startup a false answer raises `AbsenceVariables`, and the bot never polls.
- **API answer** (`get_api_answer`). The fetch is modelled only by what the request came back with (`Homework.Transport`). Three outcomes are failures: the request raised; the status is not 200; or the body does not decode as JSON. The checks run in that order.
- **Answer check** (`check_response`). The decoded answer must pass three checks, in fixed order. It must be a dict. Every key must be `current_date` or `homeworks`. The value under `homeworks` must be a list. An absent key is not rejected by the key check: `{}` fails only the list check.
- **Status rendering** (`parse_status`). A record must be a dict, and it must carry `homework_name`; the name is checked before the status. Its `status` must be one of the three keys of the verdict table. The record then renders as `Изменился статус проверки работы "<name>". <verdict>`.
- **One poll cycle** (the body of `main`'s loop). The cycle sends exactly one message. On success it is the rendered status of `homeworks[0]`. On any failure it is `Сбой в работе программы: ` followed by `str()` of the error. An empty list counts as a failure: subscripting it raises `IndexError`.

The failure notice quotes each error's text, so the model gives every error its exact `str()`:

- `HomeworkKey` and `HomeworkStatus` derive from `KeyError`. Their text is the `repr` of their message: in single quotes, unless the message contains a single quote and no double quote, in which case `repr` uses double quotes.
- A list or dict status makes the membership test itself raise `TypeError: unhashable type`.
- A record that is not a dict raises `exceptions.HomeworkErrorDict`. exceptions.py defines no such class. The raise therefore fails with `AttributeError` (`module 'exceptions' has no attribute 'HomeworkErrorDict'`), and that message is what the cycle reports. The model keeps this runtime behaviour as the distinct error `Exceptions.Error.HomeworkErrorDict`.

Files and modules:

- wrappers.dfy: `Wrappers`, with Option and result types.
- pytext.dfy: `PyText`, with `str()` of ints, `repr()` of strings, and string predicates.
- json.dfy: `Json`, with the decoded JSON value and its `str()`.
- exceptions.dfy: `Exceptions`, with every error a cycle can raise and its text.
- homework.dfy: `Homework`, with the operations of homework.py.
- homework_properties.dfy: `HomeworkProperties`, with lemmas that relate the operations, and worked examples.

`check_tokens` and `check_response` are loops in the source. They are modelled as methods with loops, proved equal to specification functions (`MissingNames`, `TokensAvailable`, `ValidateResponse`). The pure cycle function uses those specification functions.

## Model

| member | source | states |
|---|---|---|
| PyText.NatDigitsRoundTrip | homework.py:96 | `str()` of a non-negative int (as in the status-code message) is a non-empty digit string without leading zeros that reads back as the same number |
| PyText.PlainStrRepr | exceptions.py:37-46 | `repr` of text with no quotes, backslashes or control characters is that text between single quotes; this is the form `str()` of a KeyError subclass takes |
| Json.Display | homework.py:145-150 | `str()` of a string value is the string itself, only the empty string displays as empty, a list displays between `[` and `]`, and an int displays with a leading `-` iff it is negative |
| Exceptions.TextShape | homework.py:91-148 | the text `str(error)` gives for each error: a KeyError's text (HomeworkKey, HomeworkStatus) is quoted at both ends with the same quote, single or double; the request failure ends with `str()` of what the request raised; the status failure ends with the status code in decimal; the unhashable-type TypeError ends with the quoted type name |
| Exceptions.HomeworkKeyText | homework.py:139-141 | the text of HomeworkKey is its message in single quotes |
| Exceptions.HomeworkStatusText | homework.py:146-148 | the text of HomeworkStatus for a plain string status is `'Отсутствует статус работы <status>'` in single quotes |
| Homework.MissingNamesMembership | homework.py:56-60 | a name is reported iff some value under that name is missing (every missing one is reported, not only the first) |
| Homework.MissingNamesEmpty | homework.py:56-63 | nothing is reported iff no value is missing |
| Homework.EnvironmentReports | homework.py:51-63 | for the three required values: each of PRACTICUM_TOKEN, TELEGRAM_TOKEN, TELEGRAM_CHAT_ID is reported iff its value is unset or empty; nothing is reported iff all three are present |
| Homework.CheckTokens | homework.py:49-65 | the loop over the three values reports exactly the missing names, in order, and returns true iff all three are non-empty |
| Homework.Startup | homework.py:157-158 | startup passes iff all three values are present, and otherwise fails with AbsenceVariables before any polling |
| Homework.GetApiAnswer | homework.py:90-101 | the answer is the decoded body iff the request returned status 200 with a decodable body; otherwise MainRequest with the cause, UnexpectedStatus with the code (checked before decoding), or DecodingFailed |
| Homework.ValidateResponse | homework.py:104-128 | a non-dict fails with TypeErrorDict before any other check; a dict fails with MissingDataDict iff some key is outside {current_date, homeworks}; a dict with only those keys fails with TypeErrorList iff `homeworks` is absent or not a list; it passes iff it is a dict with only those keys whose `homeworks` is a list (empty allowed); no other error occurs |
| Homework.CheckResponse | homework.py:104-128 | the loop over the answer's keys, raising at an unexpected key, gives exactly the outcome of ValidateResponse |
| Homework.Verdict | homework.py:143-151 | a status is found iff it is a string key of the verdict table, and then gives that key's text; a list or dict status raises TypeError (unhashable); any other status fails with HomeworkStatus carrying it |
| Homework.ParseStatus | homework.py:131-152 | a non-dict record gives HomeworkErrorDict; a dict without homework_name gives HomeworkKey whatever its status; a dict with a name and an unusable status fails with the error of the status lookup (HomeworkStatus, or TypeError for an unhashable status); rendering succeeds iff the record is a dict with a name and a known string status; a rendered status starts with the fixed sentence |
| Homework.Poll | homework.py:162-165 | the body of the `try` gives a status iff the request, the answer check, a non-empty list and its first record all succeed, and that status starts with the fixed sentence; a failed request or answer check gives that error; an empty list gives IndexError (NoHomeworks); a non-empty list gives exactly what parse_status gives for its first record, error included |
| Homework.Cycle | homework.py:161-170 | the one message of a cycle is either a status message or a failure notice |
| HomeworkProperties.StatusMessageShape | homework.py:149-152 | a rendered status is exactly the fixed sentence with the name in double quotes followed by the verdict text; it contains the name and ends with the verdict |
| HomeworkProperties.VerdictTable | homework.py:28-32 | approved, reviewing and rejected render with their own fixed texts; any other string status fails with HomeworkStatus |
| HomeworkProperties.UnknownStatusFails | homework.py:142-148 | with a name present, an absent, null, numeric, boolean or unknown string status fails with HomeworkStatus carrying what `get('status')` gave (None when absent) |
| HomeworkProperties.VerdictFromEnding | homework.py:28-32 | no verdict text is a suffix of another, so a message's ending fixes its status |
| HomeworkProperties.StatusMessageDeterminesRecord | homework.py:149-152 | two records rendering to the same message have the same status and names that display the same |
| HomeworkProperties.PrefixesDisjoint | homework.py:150-168 | no message starts both like a status message and like a failure notice |
| HomeworkProperties.CycleMessage | homework.py:161-170 | the cycle sends the rendered status of `homeworks[0]` exactly when the request, the answer check and the record all succeed; otherwise it sends the failure prefix plus the error's text; the message's start tells which case happened |
| HomeworkProperties.CycleFailureText | homework.py:90-168 | the failure notice for a raising request, a status other than 200, an undecodable body, a failed answer check (parse_status is then not reached), an empty list (IndexError), and a first record that fails parse_status (its error's text) |
| HomeworkProperties.CycleReadsFirstRecordOnly | homework.py:165 | two valid answers whose lists start with the same record give the same message |
| HomeworkProperties.ApprovedExample | homework.py:149-152 | an answer with one approved record hw1 gives the status sentence for hw1 ending with the approved verdict |
| HomeworkProperties.EmptyListExample | homework.py:165-168 | an answer with an empty list gives `Сбой в работе программы: list index out of range` |
| HomeworkProperties.MissingNameExample | homework.py:138-141 | a record without a name gives the failure notice with the quoted HomeworkKey message |
| HomeworkProperties.UnknownStatusExample | homework.py:143-148 | a record with status `pending` gives the failure notice with the quoted HomeworkStatus message naming `pending` |
| HomeworkProperties.ServiceUnavailableExample | homework.py:94-97 | a 503 answer gives `Сбой в работе программы: Не ожидаемый HTTP статус 503`, whatever its body |
| HomeworkProperties.CheckResponseExamples | homework.py:104-128 | a list fails as not a dict; an extra key fails as MissingDataDict; `{}`, an answer with only current_date and a dict-valued homeworks fail as TypeErrorList; `{"homeworks": []}` passes |

## Left out

- HTTP (`requests.get`), the Telegram bot, `dotenv` and `os.getenv` are foreign I/O. The three configuration values are parameters. The request is modelled only by its outcome (`Homework.Transport`): the endpoint, the headers and the `from_date` parameter are not modelled.
- Logging is a side channel and is not modelled. The one exception is the names check_tokens logs as missing, which the model returns as `reported`.
- send_message swallows delivery errors, so sending never raises. The model returns the one message a cycle hands to send_message; delivery itself is not modelled.
- `time.time()`, `time.sleep(RETRY_PERIOD)` and the endless `while True` are left out. The model covers one iteration. The timestamp is an input of the request, which is not modelled. The reassignment in `finally` is overwritten before it is read.
- exceptions.py's HttpError and TelegramError are never raised by homework.py, so they are not modelled.
- JSON numbers with a fraction (Python floats) are not part of `Json.Value`.
- Json.Display: a non-empty dict is shown as `{...}` instead of Python's `repr` of its entries. The model keeps a dict as a map, which loses the insertion order that repr follows. This matters only when a record's name is a non-empty dict or contains one.
- PyText.StrRepr: every non-ASCII character is treated as printable. Python escapes the non-printable ones (for example U+00A0). ASCII control characters, quotes and backslashes are escaped as Python does.
- Exceptions.Text: for MainRequest, `str()` of what the request raised is a parameter (`Transport.Failed`), because its text comes from the requests library.
- Homework.CheckResponse: the loop visits keys in an arbitrary order instead of the dict's insertion order. Every unexpected key raises the same error, so the outcome does not change.
