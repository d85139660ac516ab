# History skill request handler, modelled in Dafny

`HistoryAlexaSkill.py` is the AWS Lambda handler of a voice-assistant skill that reads out a
historical event, either for today or for a date the user names. The handler checks that the
event comes from its own application, routes it by request type and intent name, fetches the
event list for the date from a history server, picks one event at random, phrases it as a
sentence and wraps it in the platform's reply envelope.

This project models that handler as pure Dafny functions and proves how it behaves:

- `wrappers.dfy`: `Option`, `Result` and the exceptions the handler raises (`Errors.Error`).
- `decimal.dfy`: Python's `str(n)` for a non-negative number, the value of a digit string, and
  the string facts used to show that the sentences and request paths are unambiguous.
- `speechlet.dfy`: the reply dictionaries as datatypes (field names are the dictionary keys) and
  the two builders, `build_speechlet_response` and `build_response`.
- `facts.dfy`: the two fetchers without their HTTP and JSON code. A `World` value stands for the
  outside world of one invocation: `get(path)` is the already-decoded `data.Events` list that
  the server answers for a GET of that path, and `pick(a, b)` is the value `randint(a, b)`
  returns. The ghost predicate `IsRandInt` says `pick` stays within `[a, b]`, both ends included,
  as `randint` does.
- `date_slot.dfy`: reading the DATE slot (`strptime(date, '%Y-%m-%d')`, then `.month`, `.day`).
- `skill.dfy`: the welcome, session-end, today and dated flows, `on_intent` and `lambda_handler`.

The handler's result is `Result<Option<Envelope>, Error>`: an exception, an envelope, or
Python's implicit `None`.

A request type other than the three known ones is not an error: `lambda_handler` falls off its
`if`/`elif` chain and returns `None`, so the model returns `Success(None)`.

## Model

| member | source | states |
|---|---|---|
| Skill.LambdaHandler | HistoryAlexaSkill.py:15-40 | It raises "Invalid Application ID" exactly when the application id differs from the hard-coded one. Every envelope it returns is well-formed with empty session attributes. An envelope has a reprompt exactly when it keeps the session open, and it keeps the session open exactly when it is the welcome envelope. |
| Skill.OnIntent | HistoryAlexaSkill.py:61-81 | It raises "Invalid intent" exactly when the intent name is not one of the five it handles. |
| Skill.WelcomeResponse | HistoryAlexaSkill.py:96-112 | Title "Welcome", the welcome text as speech and card content, the session kept open, a non-null reprompt, no session attributes, version "1.0". |
| Skill.SessionEndResponse | HistoryAlexaSkill.py:115-122 | Title "Session Ended", the farewell text, the session ended, a null reprompt, no session attributes. |
| Skill.GetTodayInHistory | HistoryAlexaSkill.py:126-133 | It succeeds exactly when the server has a record for today. On success it shows the today sentence of one of those records under "Today in History", ends the session and has a null reprompt. |
| Skill.GetTodayInHistoryForDate | HistoryAlexaSkill.py:135-146 | A missing DATE slot raises and a malformed one raises. Otherwise it succeeds exactly when the server has a record for the parsed month and day. On success it shows the dated sentence of one of them under "History", ends the session and has a null reprompt. |
| Skill.LaunchYieldsWelcome | HistoryAlexaSkill.py:35-36 | A launch request yields exactly the welcome envelope. |
| Skill.NoEnvelopeForOtherRequests | HistoryAlexaSkill.py:35-40 | Past the id check, the result is "no envelope" exactly when the request is neither a launch nor an intent. This covers SessionEndedRequest and unknown types. |
| Skill.HelpIsLaunch | HistoryAlexaSkill.py:76-77 | The help intent gives the same result as a launch request. |
| Skill.CancelAndStopEndSession | HistoryAlexaSkill.py:78-79 | Cancel and stop both yield the session-end envelope, and they yield the same one. |
| Skill.UnknownIntentRaises | HistoryAlexaSkill.py:80-81 | An intent request from the expected application raises "Invalid intent" exactly when its name is not handled. |
| Skill.NewFlagIgnored | HistoryAlexaSkill.py:31-33 | The session's `new` flag does not change the result, because it only triggers logging. |
| Skill.TodayIntentResponse | HistoryAlexaSkill.py:72-73 | The today intent succeeds exactly when the server has a record. Its envelope ends the session and has title "Today in History". |
| Skill.July4Request | HistoryAlexaSkill.py:135-146 | A dated request for "2020-07-04" returns an envelope whose fact begins "On July 4 in ", given the server has a record for 7/4. |
| Speechlet.BuildSpeechletResponse | HistoryAlexaSkill.py:151-169 | The speech is PlainText and says exactly the card content. The card is Simple with the given title. The reprompt is PlainText and passes the given text through unchanged, a null included. The flag is kept. |
| Speechlet.BuildResponse | HistoryAlexaSkill.py:172-177 | The version is "1.0". The given session attributes and speechlet are returned unchanged. A well-formed speechlet gives a well-formed envelope. |
| Speechlet.SpeechletBuilderCharacterised | HistoryAlexaSkill.py:151-169 | A speechlet is well-formed exactly when rebuilding it from its title, content, reprompt text and flag gives it back. |
| Speechlet.EnvelopeBuilderCharacterised | HistoryAlexaSkill.py:172-177 | An envelope is well-formed exactly when it is BuildResponse applied to a well-formed speechlet. |
| Speechlet.SpeechletBuilderInjective | HistoryAlexaSkill.py:151-169 | Two built speechlets are equal exactly when their four arguments are. |
| Speechlet.SampleEnvelope | HistoryAlexaSkill.py:151-177 | The envelope for ("T", "O", null, true) has exactly this content: version 1.0, empty attributes, PlainText "O", Simple card "T"/"O", PlainText null reprompt, session ended. |
| Facts.RandInt | HistoryAlexaSkill.py:203 | `randint(lo, hi)` succeeds exactly when lo <= hi and then lies in [lo, hi]. It raises on an empty range. |
| Facts.Nth | HistoryAlexaSkill.py:204 | `facts[i]` succeeds exactly when i < len(facts) and is then that element. Otherwise it raises IndexError. |
| Facts.PickFact | HistoryAlexaSkill.py:202-204 | Drawing from [0, len-1] succeeds exactly when the list is non-empty, and the chosen record is then an element of the list. |
| Facts.FetchFactForToday | HistoryAlexaSkill.py:181-195 | As written, with draw i from [0, len]: it succeeds exactly when i < len, giving "Today in " + year + ", " + text of record i. It raises IndexError otherwise. |
| Facts.TodayDrawCanPassEnd | HistoryAlexaSkill.py:186-188 | The today draw admits len. A generator returning the top of its range makes the fetch raise IndexError for every server answer, and an empty answer makes it raise for every generator. |
| Facts.TodayOneRecordDrawOne | HistoryAlexaSkill.py:186-188 | For a one-record answer with randint(0, 1) drawing 1, the fetch raises IndexError. |
| Facts.FetchFactForTodayFixed | HistoryAlexaSkill.py:186-191 | With the by-day draw, the today fetch succeeds exactly when the server has a record, and then gives the today sentence of one of them. |
| Facts.FetchFactForDay | HistoryAlexaSkill.py:197-211 | It succeeds exactly when the answer for /date/{month}/{day} is non-empty. It then gives "On " + month name + " " + str(day) + " in " + year + ", " + text of a record of that list, the one at the drawn index. An empty list raises. |
| Facts.TwoRecordDayFact | HistoryAlexaSkill.py:201-207 | For the answer [{1999, X}, {2001, Y}], every draw gives the sentence of the 1999 or the 2001 record and never raises. |
| Facts.DayPath | HistoryAlexaSkill.py:199 | The by-day path extends "/date". |
| Facts.DayPathInjective | HistoryAlexaSkill.py:183-199 | The by-day path is never the today path, and distinct (month, day) give distinct paths. |
| Facts.MonthNamesDistinct | HistoryAlexaSkill.py:207 | The twelve month names are pairwise distinct and contain no space. |
| Facts.DayTextShape | HistoryAlexaSkill.py:207 | A proof step of Facts.DayTextNamesDate: the dated sentence regrouped around its two separating spaces. |
| Facts.DayTextNamesDate | HistoryAlexaSkill.py:207 | Two equal dated sentences name the same month and day. |
| DateSlot.ParseDateSlot | HistoryAlexaSkill.py:136-139 | On success the month is in 1..12 and the day in 1..31. On failure the error is the date error. |
| DateSlot.FormatThenParse | HistoryAlexaSkill.py:137-139 | Every zero-padded YYYY-MM-DD spelling with month 1..12 and day 1..31 parses to that month and day. |
| DateSlot.ParseOnlyPrinted | HistoryAlexaSkill.py:137-139 | Every accepted slot value is exactly the zero-padded spelling of its year, month and day. |
| DateSlot.July4Slot | HistoryAlexaSkill.py:137-139 | "2020-07-04" parses to July 4. |
| DateSlot.FormatDate | HistoryAlexaSkill.py:137 | The zero-padded spelling has the DDDD-DD-DD shape. |
| DateSlot.PadValue | HistoryAlexaSkill.py:137 | A number with at most `width` digits reads back from its zero-padded spelling. |
| DateSlot.PadOfDigits | HistoryAlexaSkill.py:137 | Every digit string is the zero-padded spelling of its own value. |
| Decimal.NatToDecimal | HistoryAlexaSkill.py:199 | `str(n)` is a non-empty digit string with no leading zero. |
| Decimal.DecimalValue | HistoryAlexaSkill.py:137 | The value of a digit string of length w is below 10^w. |
| Decimal.DecimalRoundTrip | HistoryAlexaSkill.py:199 | Reading back `str(n)` gives n. |
| Decimal.NatToDecimalInjective | HistoryAlexaSkill.py:199 | Distinct numbers print differently. |

## Left out

- The HTTP request to the history server and `json.loads` (HistoryAlexaSkill.py:182-185, 198-201) are network I/O and library code. The decoded `data.Events` list comes in through `World.get`, so network failures, non-200 answers, malformed JSON and missing `text`/`year` fields are not modelled.
- `randint` is random. Its result comes in through `World.pick`, constrained by `IsRandInt` to the range each call site asks for.
- Every `print`, `on_session_started`, `on_session_ended` and the logging in `on_launch` only write logs. The model routes a launch straight to the welcome envelope and a session-ended request to "no envelope".
- The request and session identifiers are only logged, and the Lambda `context` argument is unused, so neither is modelled.
- Skill.TodayIntentResponse: inherits the corrected draw of Skill.GetTodayInHistory, so it states success for every non-empty today answer. The code as written also raises IndexError on a non-empty answer when `randint(0, count)` returns `count` (see Findings).
- Skill.GetTodayInHistory: uses the corrected draw `Facts.FetchFactForTodayFixed`, not the as-written one. On an empty answer it therefore raises the empty-range error where the code raises IndexError, and it never raises for a non-empty answer. The as-written behaviour is `Facts.FetchFactForToday` (see Findings).
- DateSlot.ParseDateSlot: only the strict zero-padded `YYYY-MM-DD` form is accepted. The model rejects spellings `strptime` also accepts, such as "2020-7-4". It does not check calendar validity, so it accepts "2020-02-30" and year "0000", which `strptime` rejects.
- `calendar.month_name` depends on the locale. The model fixes the English names.
- The exception classes are modelled only by their kind, not by their message text.
- The literals are Python 2 byte strings, while the `year` and `text` fields decoded by `json.loads` are `unicode`, so the fact sentences are `unicode`. The model represents both kinds as `seq<char>`.

## Findings

| source | as written | input that shows it | evidently intended | confidence | as-written member | corrected member |
|---|---|---|---|---|---|---|
| HistoryAlexaSkill.py:186-188 | `i = randint(0, count)` with `count = len(facts)` draws from [0, len], both ends included, and then reads `facts[i]` | the server answers one record, [{1999, X}], and `randint(0, 1)` returns 1: `facts[1]` raises IndexError; an empty answer raises for every draw | draw from [0, len - 1], as `fetchFactForDay` does | not executed; follows from `randint` including both bounds | Facts.TodayOneRecordDrawOne | Facts.FetchFactForTodayFixed |
