/**
 * The request handler: lambda_handler and on_intent route an incoming event
 * to one of the response flows (welcome, session end, today's fact, a dated
 * fact), each of which builds its envelope from fixed titles, texts and flags.
 */
module Skill {
  import opened Wrappers
  import opened Errors
  import opened Speechlet
  import opened Facts
  import opened DateSlot
  import Decimal

  /** The one application allowed to call the skill. */
  const ExpectedApplicationId: string := "amzn1.echo-sdk-ams.app.31a363aa-6d34-48bc-bb56-1064a16a14c8"

  /**
   * The parts of the platform's event the handler reads:
   * session.application.applicationId, session.new, request.type,
   * request.intent.name and request.intent.slots.DATE.value.
   */
  datatype IncomingEvent = IncomingEvent(
    applicationId: string,
    isNew: bool,
    requestType: string,
    intentName: string,
    dateSlot: Option<string>)

  const WelcomeSpeech: string := "Welcome to History. Ask me about history on any date."
  const WelcomeReprompt: string := "Ask for a historical fact by saying, What happened today in history."
  const FarewellSpeech: string := "Thank you for trying history. Have a nice day! "

  /** The intent names on_intent handles. */
  const KnownIntents: set<string> := {
    "TodayInHistoryIntent", "TodayInHistoryWithDateIntent",
    "AMAZON.HelpIntent", "AMAZON.CancelIntent", "AMAZON.StopIntent"}

  /** An envelope that closes the session with no reprompt, showing `fact` under `title`. */
  predicate ClosingEnvelope(e: Envelope, title: string, fact: string)
  {
    && WellFormedEnvelope(e)
    && e.sessionAttributes == map[]
    && e.response.card.title == title
    && e.response.card.content == fact
    && e.response.shouldEndSession
    && e.response.reprompt.outputSpeech.text == None
  }

  /** get_welcome_response: keeps the session open and has a reprompt. */
  function WelcomeResponse(): (e: Envelope)
    ensures WellFormedEnvelope(e) && e.sessionAttributes == map[]
    ensures e.response.card.title == "Welcome" && e.response.card.content == WelcomeSpeech
    ensures !e.response.shouldEndSession
    ensures e.response.reprompt.outputSpeech.text == Some(WelcomeReprompt)
  {
    BuildResponse(map[], BuildSpeechletResponse("Welcome", WelcomeSpeech, Some(WelcomeReprompt), false))
  }

  /** handle_session_end_request: ends the session, no reprompt. */
  function SessionEndResponse(): (e: Envelope)
    ensures ClosingEnvelope(e, "Session Ended", FarewellSpeech)
  {
    BuildResponse(map[], BuildSpeechletResponse("Session Ended", FarewellSpeech, None, true))
  }

  /**
   * get_today_in_history: today's fact under "Today in History", closing the
   * session. The fact is drawn with the corrected index range, so the flow
   * fails only when the server has no record for today.
   */
  function GetTodayInHistory(w: World): (r: Result<Envelope, Error>)
    requires IsRandInt(w.pick)
    ensures var facts := w.get(TodayPath);
      && (r.Success? <==> |facts| > 0)
      && (r.Success? ==> exists k :: 0 <= k < |facts| && ClosingEnvelope(r.value, "Today in History", TodayText(facts[k])))
      && (r.Failure? ==> r.error == EmptyRange)
  {
    match FetchFactForTodayFixed(w)
    case Failure(err) => Failure(err)
    case Success(fact) => Success(BuildResponse(map[], BuildSpeechletResponse("Today in History", fact, None, true)))
  }

  /**
   * get_today_in_history_for_date: reads the DATE slot, parses it, fetches a
   * fact for that month and day and shows it under "History", closing the
   * session.
   */
  function GetTodayInHistoryForDate(slot: Option<string>, w: World): (r: Result<Envelope, Error>)
    requires IsRandInt(w.pick)
    ensures slot.None? ==> r == Failure(MissingDateSlot)
    ensures slot.Some? && ParseDateSlot(slot.value).Failure? ==> r == Failure(MalformedDate)
    ensures slot.Some? && ParseDateSlot(slot.value).Success? ==>
      var (month, day) := ParseDateSlot(slot.value).value;
      var facts := w.get(DayPath(month, day));
      && (r.Success? <==> |facts| > 0)
      && (r.Success? ==> exists k :: 0 <= k < |facts| && ClosingEnvelope(r.value, "History", DayText(month, day, facts[k])))
      && (r.Failure? ==> r.error == EmptyRange)
  {
    match slot
    case None => Failure(MissingDateSlot)
    case Some(date) =>
      match ParseDateSlot(date)
      case Failure(err) => Failure(err)
      case Success((month, day)) =>
        match FetchFactForDay(w, month, day)
        case Failure(err) => Failure(err)
        case Success(fact) => Success(BuildResponse(map[], BuildSpeechletResponse("History", fact, None, true)))
  }

  /** on_intent: dispatch on the intent name; any other name raises. */
  function OnIntent(e: IncomingEvent, w: World): (r: Result<Envelope, Error>)
    requires IsRandInt(w.pick)
    ensures r == Failure(InvalidIntent) <==> e.intentName !in KnownIntents
  {
    if e.intentName == "TodayInHistoryIntent" then GetTodayInHistory(w)
    else if e.intentName == "TodayInHistoryWithDateIntent" then GetTodayInHistoryForDate(e.dateSlot, w)
    else if e.intentName == "AMAZON.HelpIntent" then Success(WelcomeResponse())
    else if e.intentName == "AMAZON.CancelIntent" || e.intentName == "AMAZON.StopIntent" then Success(SessionEndResponse())
    else Failure(InvalidIntent)
  }

  /**
   * lambda_handler: the application-ID check first, then dispatch on the
   * request type. A launch gets the welcome; an intent goes to on_intent; a
   * session-ended notification, like any other request type, returns no
   * envelope. The `new` flag only triggers logging.
   */
  function LambdaHandler(e: IncomingEvent, w: World): (r: Result<Option<Envelope>, Error>)
    requires IsRandInt(w.pick)
    ensures (r == Failure(InvalidApplicationId)) <==> e.applicationId != ExpectedApplicationId
    ensures r.Success? && r.value.Some? ==>
      var env := r.value.value;
      && WellFormedEnvelope(env)
      && env.sessionAttributes == map[]
      && (env.response.reprompt.outputSpeech.text.Some? <==> !env.response.shouldEndSession)
      && (!env.response.shouldEndSession <==> env == WelcomeResponse())
  {
    if e.applicationId != ExpectedApplicationId then Failure(InvalidApplicationId)
    else if e.requestType == "LaunchRequest" then Success(Some(WelcomeResponse()))
    else if e.requestType == "IntentRequest" then
      match OnIntent(e, w)
      case Failure(err) => Failure(err)
      case Success(env) => Success(Some(env))
    else Success(None)
  }

  /** A launch from the expected application yields exactly the welcome envelope. */
  lemma LaunchYieldsWelcome(e: IncomingEvent, w: World)
    requires IsRandInt(w.pick)
    requires e.applicationId == ExpectedApplicationId && e.requestType == "LaunchRequest"
    ensures LambdaHandler(e, w) == Success(Some(WelcomeResponse()))
  {
  }

  /** Session-ended notifications and unknown request types produce no envelope and no error. */
  lemma NoEnvelopeForOtherRequests(e: IncomingEvent, w: World)
    requires IsRandInt(w.pick)
    requires e.applicationId == ExpectedApplicationId
    ensures LambdaHandler(e, w) == Success(None) <==>
      e.requestType != "LaunchRequest" && e.requestType != "IntentRequest"
  {
  }

  /** The help intent answers exactly as a launch does. */
  lemma HelpIsLaunch(e: IncomingEvent, w: World)
    requires IsRandInt(w.pick)
    requires e.requestType == "IntentRequest" && e.intentName == "AMAZON.HelpIntent"
    ensures LambdaHandler(e, w) == LambdaHandler(e.(requestType := "LaunchRequest"), w)
  {
  }

  /** Cancel and stop both end the session with the same envelope. */
  lemma CancelAndStopEndSession(e: IncomingEvent, w: World)
    requires IsRandInt(w.pick)
    requires e.applicationId == ExpectedApplicationId && e.requestType == "IntentRequest"
    requires e.intentName == "AMAZON.CancelIntent" || e.intentName == "AMAZON.StopIntent"
    ensures LambdaHandler(e, w) == Success(Some(SessionEndResponse()))
    ensures LambdaHandler(e, w) == LambdaHandler(e.(intentName := "AMAZON.StopIntent"), w)
  {
  }

  /** An intent request raises "Invalid intent" exactly when its name is not one of the five handled. */
  lemma UnknownIntentRaises(e: IncomingEvent, w: World)
    requires IsRandInt(w.pick)
    requires e.applicationId == ExpectedApplicationId && e.requestType == "IntentRequest"
    ensures LambdaHandler(e, w) == Failure(InvalidIntent) <==> e.intentName !in KnownIntents
  {
  }

  /** Whether the session is new does not change the answer. */
  lemma NewFlagIgnored(e: IncomingEvent, w: World)
    requires IsRandInt(w.pick)
    ensures LambdaHandler(e.(isNew := true), w) == LambdaHandler(e.(isNew := false), w)
  {
  }

  /** The today intent closes the session under "Today in History" whenever the server has a record. */
  lemma TodayIntentResponse(e: IncomingEvent, w: World)
    requires IsRandInt(w.pick)
    requires e.applicationId == ExpectedApplicationId && e.requestType == "IntentRequest"
    requires e.intentName == "TodayInHistoryIntent"
    ensures LambdaHandler(e, w).Success? <==> |w.get(TodayPath)| > 0
    ensures LambdaHandler(e, w).Success? ==>
      var env := LambdaHandler(e, w).value.value;
      env.response.shouldEndSession && env.response.card.title == "Today in History"
  {
  }

  /** A dated request for "2020-07-04" speaks a fact that begins "On July 4 in ". */
  lemma July4Request(e: IncomingEvent, w: World)
    requires IsRandInt(w.pick)
    requires e.applicationId == ExpectedApplicationId && e.requestType == "IntentRequest"
    requires e.intentName == "TodayInHistoryWithDateIntent" && e.dateSlot == Some("2020-07-04")
    requires |w.get(DayPath(7, 4))| > 0
    ensures LambdaHandler(e, w).Success? && LambdaHandler(e, w).value.Some?
    ensures var content := LambdaHandler(e, w).value.value.response.card.content;
      |content| >= 13 && content[..13] == "On July 4 in "
  {
    July4Slot();
    var facts := w.get(DayPath(7, 4));
    var f := facts[w.pick(0, |facts| - 1)];
    assert DayText(7, 4, f) == "On July 4 in " + f.year + ", " + f.text by {
      assert Decimal.NatToDecimal(4) == "4";
    }
  }
}
