/**
 * The reply envelope of the voice platform and the two helpers that build it
 * (build_speechlet_response and build_response). Each dictionary of the
 * source becomes a datatype whose field names are the dictionary's keys.
 */
module Speechlet {
  import opened Wrappers

  /** {'type': ..., 'text': ...}; the text of a reprompt may be `None`. */
  datatype OutputSpeech = OutputSpeech(speechType: string, text: Option<string>)

  /** {'type': ..., 'title': ..., 'content': ...} */
  datatype Card = Card(cardType: string, title: string, content: string)

  /** {'outputSpeech': ...} */
  datatype Reprompt = Reprompt(outputSpeech: OutputSpeech)

  datatype SpeechletResponse = SpeechletResponse(
    outputSpeech: OutputSpeech,
    card: Card,
    reprompt: Reprompt,
    shouldEndSession: bool)

  /** {'version': ..., 'sessionAttributes': ..., 'response': ...} */
  datatype Envelope = Envelope(
    version: string,
    sessionAttributes: map<string, string>,
    response: SpeechletResponse)

  const PlainText: string := "PlainText"
  const Simple: string := "Simple"
  const Version: string := "1.0"

  /**
   * The shape every speechlet of the skill has: plain-text speech that says
   * exactly what the simple card shows, and a plain-text reprompt.
   */
  predicate WellFormedSpeechlet(r: SpeechletResponse)
  {
    && r.outputSpeech.speechType == PlainText
    && r.outputSpeech.text == Some(r.card.content)
    && r.card.cardType == Simple
    && r.reprompt.outputSpeech.speechType == PlainText
  }

  /** An envelope of the fixed version around a well-formed speechlet. */
  predicate WellFormedEnvelope(e: Envelope)
  {
    e.version == Version && WellFormedSpeechlet(e.response)
  }

  function BuildSpeechletResponse(
    title: string, output: string, repromptText: Option<string>, shouldEndSession: bool
  ): (r: SpeechletResponse)
    ensures WellFormedSpeechlet(r)
    ensures r.card.title == title && r.card.content == output
    ensures r.reprompt.outputSpeech.text == repromptText
    ensures r.shouldEndSession == shouldEndSession
  {
    SpeechletResponse(
      OutputSpeech(PlainText, Some(output)),
      Card(Simple, title, output),
      Reprompt(OutputSpeech(PlainText, repromptText)),
      shouldEndSession)
  }

  function BuildResponse(sessionAttributes: map<string, string>, speechlet: SpeechletResponse): (e: Envelope)
    ensures e.version == Version
    ensures e.sessionAttributes == sessionAttributes && e.response == speechlet
    ensures WellFormedSpeechlet(speechlet) ==> WellFormedEnvelope(e)
  {
    Envelope(Version, sessionAttributes, speechlet)
  }

  /**
   * The builder produces exactly the well-formed speechlets: a speechlet is
   * well-formed if and only if rebuilding it from its title, content,
   * reprompt text and flag gives it back.
   */
  lemma SpeechletBuilderCharacterised(r: SpeechletResponse)
    ensures WellFormedSpeechlet(r) <==>
      r == BuildSpeechletResponse(r.card.title, r.card.content, r.reprompt.outputSpeech.text, r.shouldEndSession)
  {
  }

  /** Likewise, envelopes built by BuildResponse from well-formed speechlets are the well-formed ones. */
  lemma EnvelopeBuilderCharacterised(e: Envelope)
    ensures WellFormedEnvelope(e) <==>
      WellFormedSpeechlet(e.response) && e == BuildResponse(e.sessionAttributes, e.response)
  {
  }

  /** Building is one-to-one: the four arguments can be read back off the speechlet. */
  lemma SpeechletBuilderInjective(
    t1: string, o1: string, p1: Option<string>, f1: bool,
    t2: string, o2: string, p2: Option<string>, f2: bool)
    ensures BuildSpeechletResponse(t1, o1, p1, f1) == BuildSpeechletResponse(t2, o2, p2, f2)
      <==> t1 == t2 && o1 == o2 && p1 == p2 && f1 == f2
  {
  }

  /**
   * The envelope for title "T", output "O", no reprompt and an ended session,
   * written out field by field.
   */
  lemma SampleEnvelope()
    ensures BuildResponse(map[], BuildSpeechletResponse("T", "O", None, true)) ==
      Envelope("1.0", map[], SpeechletResponse(
        OutputSpeech("PlainText", Some("O")),
        Card("Simple", "T", "O"),
        Reprompt(OutputSpeech("PlainText", None)),
        true))
  {
  }
}
