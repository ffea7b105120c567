/**
 * `Wrapper`: the outermost handler that turns whatever a route throws into
 * exactly one JSON envelope (unless headers were already sent).
 */
module Wrapper {
  import opened Wrappers
  import opened WrapperResults
  import opened Results

  /**
   * The result the envelope is built from: a thrown WrapperResult is kept, a Joi
   * ValidationError becomes FAILED_VALIDATE carrying its details, anything else
   * becomes INVALID_ERROR.
   */
  function ResultFor(err: Failure): WrapperResult {
    match err
    case Result(r) => r
    case Validation(d) => Make(FailedValidate, Lazy(Some(map["details" := d]), None, None))
    case _ => Make(InvalidError, NoLazy)
  }

  datatype Reply = Reply(status: int, body: map<string, Value>)

  /** Whether the error went to the tracker, and what was written to the response. */
  datatype Handled = Handled(reported: bool, reply: Option<Reply>)

  /**
   * `{ opcode, eventId, message, ...details }`: undefined members are left out
   * and every key of `details` overrides the one before it.
   */
  function Envelope(r: WrapperResult, eventId: Option<string>, translate: (string, seq<string>) -> string)
    : (body: map<string, Value>)
    ensures forall k :: k in r.details ==> k in body && body[k] == r.details[k]
    ensures "opcode" !in r.details ==> "opcode" in body && body["opcode"] == Num(r.opcode)
    ensures "eventId" !in r.details ==> ("eventId" in body <==> eventId.Some?)
    ensures "message" !in r.details ==> ("message" in body <==> r.message != "")
    ensures "message" !in r.details && r.message != "" ==> body["message"] == Str(translate(r.message, r.args))
    ensures "eventId" !in r.details && eventId.Some? ==> body["eventId"] == Str(eventId.value)
    ensures body.Keys == {"opcode"} + (if eventId.Some? then {"eventId"} else {})
                         + (if r.message != "" then {"message"} else {}) + r.details.Keys
  {
    var base := map["opcode" := Num(r.opcode)];
    var withEvent := if eventId.Some? then base["eventId" := Str(eventId.value)] else base;
    var withMessage :=
      if r.message != "" then withEvent["message" := Str(translate(r.message, r.args))] else withEvent;
    withMessage + r.details
  }

  /**
   * The catch handler: report to the tracker iff the result is reportable (the
   * tracker answers `eventId`), then write status and envelope unless headers
   * were already sent.
   */
  function Handle(err: Failure, headersSent: bool, eventId: string, translate: (string, seq<string>) -> string)
    : (h: Handled)
    ensures h.reported <==> ResultFor(err).reportable
    ensures h.reply.None? <==> headersSent
    ensures h.reply.Some? ==> h.reply.value.status == ResultFor(err).statusCode
  {
    var r := ResultFor(err);
    var ev := if r.reportable then Some(eventId) else None;
    Handled(r.reportable, if headersSent then None else Some(Reply(r.statusCode, Envelope(r, ev, translate))))
  }

  /** A thrown WrapperResult keeps its own status, and its opcode unless details override it. */
  lemma ThrownResultKept(r: WrapperResult, eventId: string, translate: (string, seq<string>) -> string)
    requires "opcode" !in r.details
    ensures var h := Handle(Result(r), false, eventId, translate);
      h.reply.Some? && h.reply.value.status == r.statusCode && h.reply.value.body["opcode"] == Num(r.opcode)
  {
  }

  /** Any error that is neither a WrapperResult nor a Joi error replies 500 with opcode 105. */
  lemma ForeignErrorIsInvalidError(err: Failure, eventId: string, translate: (string, seq<string>) -> string)
    requires !err.Result? && !err.Validation?
    ensures var h := Handle(err, false, eventId, translate);
      !h.reported && h.reply.Some? && h.reply.value.status == 500
      && h.reply.value.body["opcode"] == Num(105)
      && h.reply.value.body["message"] == Str(translate("INVALID_ERROR", []))
  {
  }

  /** A Joi error replies 400 with opcode 106 and carries its details under `details`. */
  lemma ValidationIsFailedValidate(d: Value, eventId: string, translate: (string, seq<string>) -> string)
    ensures var h := Handle(Validation(d), false, eventId, translate);
      !h.reported && h.reply.Some? && h.reply.value.status == 400
      && h.reply.value.body["opcode"] == Num(106) && h.reply.value.body["details"] == d
  {
  }

  /** Nothing built from the RESULT table is reportable, so such errors never reach the tracker. */
  lemma TableResultsNeverReported(c: Code, lazy: Lazy, headersSent: bool, eventId: string,
                                  translate: (string, seq<string>) -> string)
    ensures !Handle(Result(Make(c, lazy)), headersSent, eventId, translate).reported
  {
  }
}
