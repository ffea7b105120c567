/**
 * The typed error `WrapperResult` (name 'Result', an opcode, an HTTP status,
 * structured details) and the other kinds of failure the core raises.
 */
module WrapperResults {
  import opened Wrappers

  /** A JSON value inside `details`; arrays and nested objects are opaque. */
  datatype Value = Num(n: int) | Str(s: string) | Flag(b: bool) | Opaque(id: nat)

  type Details = map<string, Value>

  /**
   * The argument of `new WrapperResult(props)`. An absent or falsy
   * `reportable`, `details` or `args` is `None`; an absent message is `None`.
   */
  datatype Props = Props(
    opcode: int,
    statusCode: int,
    message: Option<string>,
    reportable: Option<bool>,
    details: Option<Details>,
    args: Option<seq<string>>,
    res: Option<nat>)

  /** `res` stands for the Express response object, by identity. */
  datatype WrapperResult = WrapperResult(
    name: string,
    opcode: int,
    statusCode: int,
    message: string,
    reportable: bool,
    details: Details,
    args: seq<string>,
    res: Option<nat>)

  /** The constructor: a zero status becomes 500, missing parts get their defaults. */
  function NewWrapperResult(p: Props): (w: WrapperResult)
    ensures w.name == "Result" && w.opcode == p.opcode && w.res == p.res
    ensures w.statusCode != 0
    ensures p.statusCode != 0 ==> w.statusCode == p.statusCode
    ensures p.statusCode == 0 ==> w.statusCode == 500
    ensures w.reportable <==> p.reportable == Some(true)
    ensures p.details.None? ==> w.details == map[]
    ensures p.details.Some? ==> w.details == p.details.value
    ensures p.args.None? ==> w.args == []
    ensures p.args.Some? ==> w.args == p.args.value
    ensures w.message != "" <==> p.message.Some? && p.message.value != ""
    ensures w.message != "" ==> p.message == Some(w.message)
  {
    WrapperResult(
      "Result",
      p.opcode,
      if p.statusCode == 0 then 500 else p.statusCode,
      // `if (props.message) this.message = props.message`; Error's own message is ''
      if p.message.Some? then p.message.value else "",
      p.reportable == Some(true),
      p.details.GetOr(map[]),
      p.args.GetOr([]),
      p.res)
  }

  /**
   * Failures thrown through `RESULT` members that result.ts does not define.
   * As that file stands, calling such a member raises a TypeError.
   */
  datatype Tag =
    | PassProgramIsNotSale
    | CannotFindPassGroup
    | PassProgramHasUsing(count: nat)
    | CannotFindNotification
    | AlreadySelectedReferrer
    | InvalidReferralCode
    | CannotReferralMyself
    | PhoneNoAlreadyUsed
    | CouponGroupNotFound

  /** The `OPCODE` member an `InternalError` carries, if any. */
  datatype InternalCode = OpcodeNotFound | OpcodeRequiredLogin | OpcodeExcessLimits | NoOpcode

  /** Errors of the storage layer. */
  datatype DbError = RecordNotFound | UniqueViolation | InvalidValue

  /** Anything the core can throw. */
  datatype Failure =
    | Result(result: WrapperResult)         // a WrapperResult, named 'Result'
    | Unlisted(tag: Tag)                    // a RESULT member missing from the table
    | Internal(code: InternalCode)          // InternalError(message, OPCODE.x)
    | Remote(opcode: Option<int>)           // a failed call to another service, named 'InternalError'
    | Validation(details: Value)            // a Joi ValidationError
    | Database(error: DbError)              // the storage layer refused a write
    | Other                                 // any other exception

  /** A Joi `ValidationError`; which rule failed is not modelled. */
  const JoiRejected: Failure := Validation(Opaque(0))

  /** `err.name === 'Result'`: only WrapperResult sets that name. */
  predicate NamedResult(f: Failure) {
    f.Result?
  }

  /** `err.details.opcode`, read only when the name is 'Result'. */
  function DetailsOpcode(f: Failure): (v: Option<Value>)
    requires NamedResult(f)
    ensures v.Some? <==> "opcode" in f.result.details
  {
    if "opcode" in f.result.details then Some(f.result.details["opcode"]) else None
  }

  /** The opcode a failure carries in its own `opcode` property, if any. */
  function OwnOpcode(f: Failure): (v: Option<int>)
    ensures f.Result? ==> v == Some(f.result.opcode)
    ensures !f.Result? && !f.Remote? ==> v.None?
  {
    match f
    case Result(r) => Some(r.opcode)
    case Remote(op) => op
    case _ => None
  }
}
