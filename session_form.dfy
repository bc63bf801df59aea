/**
 * The session-URL form: its validation rule and its submit step. Parsing the
 * pasted URL is done by a foreign URL parser; `parse` stands for it and yields
 * its outcome.
 */
module SessionForm {
  import opened Wrappers

  /** Outcome of getSessionIdFromValidatorURL on one input. */
  datatype ParseOutcome =
    | Threw               // the URL constructor rejected the input
    | NoParam             // no `sessionId` query parameter (null)
    | Param(value: string) // the parameter's value, possibly empty

  const RequiredMessage := "Session URL is required"
  const InvalidMessage := "Session URL is invalid"
  const ParseFailedMessage := "Failed to parse session URL"

  /** The id `!id` lets through: present and not the empty string. */
  function ExtractedId(o: ParseOutcome): (id: Option<string>)
    ensures id.Some? <==> o.Param? && o.value != ""
    ensures id.Some? ==> id.value == o.value
  {
    match o
    case Param(v) => if v == "" then None else Some(v)
    case _ => None
  }

  /**
   * The validation rule of the `sessionURL` field: an error message, or None
   * (undefined) when the value is accepted.
   */
  function Validate(value: string, parse: string -> ParseOutcome): (m: Option<string>)
    ensures value == "" ==> m == Some(RequiredMessage)
    ensures value != "" && parse(value).Threw? ==> m == Some(ParseFailedMessage)
    ensures value != "" && !parse(value).Threw? && ExtractedId(parse(value)).None? ==> m == Some(InvalidMessage)
    ensures m.None? <==> value != "" && ExtractedId(parse(value)).Some?
  {
    if value == "" then Some(RequiredMessage)
    else
      match parse(value)
      case Threw => Some(ParseFailedMessage)
      case NoParam => Some(InvalidMessage)
      case Param(id) => if id == "" then Some(InvalidMessage) else None
  }

  /** Why a submit failed. */
  datatype SubmitFailure =
    | ParserThrew          // the parser's own exception propagates
    | Raised(message: string)

  datatype SubmitResult = Submitted | Failed(failure: SubmitFailure)

  /** What submit does to the outside world, in order. */
  datatype Effect =
    | StoreSession(id: string, temporary: bool)  // setActiveSession(id, temporary)
    | Pop                                         // navigation pop

  /** The outcome of the submit step for the form value `sessionURL`. */
  function SubmitOutcome(sessionURL: string, parse: string -> ParseOutcome): SubmitResult {
    match parse(sessionURL)
    case Threw => Failed(ParserThrew)
    case _ => if ExtractedId(parse(sessionURL)).Some? then Submitted else Failed(Raised(ParseFailedMessage))
  }

  /** The session-URL form, with the effects its submit step has performed so far. */
  class SessionUrlInput {
    var effects: seq<Effect>

    constructor ()
      ensures effects == []
    {
      effects := [];
    }

    /**
     * onSubmit: the id is stored as a non-temporary session and then the form is
     * popped; when no id is extracted nothing is written and nothing is popped.
     */
    method Submit(sessionURL: string, parse: string -> ParseOutcome) returns (r: SubmitResult)
      modifies this
      ensures r == SubmitOutcome(sessionURL, parse)
      ensures r == Submitted ==>
        effects == old(effects) + [StoreSession(ExtractedId(parse(sessionURL)).value, false), Pop]
      ensures r != Submitted ==> effects == old(effects)
    {
      var outcome := parse(sessionURL);
      if outcome.Threw? {
        return Failed(ParserThrew);
      }
      var id := ExtractedId(outcome);
      if id.None? {
        return Failed(Raised(ParseFailedMessage));
      }
      effects := effects + [StoreSession(id.value, false)];
      effects := effects + [Pop];
      r := Submitted;
    }
  }

  /**
   * A value the validator accepts always submits, storing the same id; submit
   * succeeds on exactly the inputs whose id the validator would extract.
   */
  lemma ValidatedValuesSubmit(value: string, parse: string -> ParseOutcome)
    ensures Validate(value, parse).None? ==> SubmitOutcome(value, parse) == Submitted
    ensures SubmitOutcome(value, parse) == Submitted <==> ExtractedId(parse(value)).Some?
    ensures value != "" ==> (Validate(value, parse).None? <==> SubmitOutcome(value, parse) == Submitted)
  {
  }

  /** `?sessionId=` with an empty value is rejected by both the validator and submit. */
  lemma EmptyIdRejected(value: string, parse: string -> ParseOutcome)
    requires value != "" && parse(value) == Param("")
    ensures Validate(value, parse) == Some(InvalidMessage)
    ensures SubmitOutcome(value, parse) == Failed(Raised(ParseFailedMessage))
  {
  }
}
