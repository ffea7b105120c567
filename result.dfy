/** The `RESULT` table: one factory per outcome, each with a fixed opcode and HTTP status. */
module Results {
  import opened Wrappers
  import opened WrapperResults

  /** The members of `RESULT`, in the order the table lists them. */
  datatype Code =
    | Success
    | RequiredAccessKey
    | ExpiredAccessKey
    | PermissionDenied
    | RequiredLogin
    | InvalidError
    | FailedValidate
    | InvalidApi
    | InvalidLicense
    | NotConnectedWithMethod
    | NotRegisteredUser
    | CannotFindWithKakao
    | AlreadyConnectWithMethod
    | CannotFindUser
    | AlreadyRegisteredUser
    | InvalidPhoneValidateCode
    | RetryPhoneValidate
    | CannotFindSession
    | InvalidMessagingToken
    | RequiredLicense

  function Opcode(c: Code): int {
    match c
    case Success => 0
    case RequiredAccessKey => 101
    case ExpiredAccessKey => 102
    case PermissionDenied => 103
    case RequiredLogin => 104
    case InvalidError => 105
    case FailedValidate => 106
    case InvalidApi => 107
    case InvalidLicense => 108
    case NotConnectedWithMethod => 109
    case NotRegisteredUser => 100
    case CannotFindWithKakao => 110
    case AlreadyConnectWithMethod => 111
    case CannotFindUser => 112
    case AlreadyRegisteredUser => 113
    case InvalidPhoneValidateCode => 114
    case RetryPhoneValidate => 115
    case CannotFindSession => 116
    case InvalidMessagingToken => 117
    case RequiredLicense => 118
  }

  function Status(c: Code): int {
    match c
    case Success => 200
    case RequiredAccessKey => 401
    case ExpiredAccessKey => 401
    case PermissionDenied => 403
    case RequiredLogin => 401
    case InvalidError => 500
    case FailedValidate => 400
    case InvalidApi => 404
    case InvalidLicense => 400
    case NotConnectedWithMethod => 404
    case NotRegisteredUser => 404
    case CannotFindWithKakao => 404
    case AlreadyConnectWithMethod => 409
    case CannotFindUser => 404
    case AlreadyRegisteredUser => 409
    case InvalidPhoneValidateCode => 404
    case RetryPhoneValidate => 400
    case CannotFindSession => 404
    case InvalidMessagingToken => 400
    case RequiredLicense => 400
  }

  /** The i18n key; every member but SUCCESS uses its own name. */
  function MessageKey(c: Code): Option<string> {
    match c
    case Success => None
    case RequiredAccessKey => Some("REQUIRED_ACCESS_KEY")
    case ExpiredAccessKey => Some("EXPIRED_ACCESS_KEY")
    case PermissionDenied => Some("PERMISSION_DENIED")
    case RequiredLogin => Some("REQUIRED_LOGIN")
    case InvalidError => Some("INVALID_ERROR")
    case FailedValidate => Some("FAILED_VALIDATE")
    case InvalidApi => Some("INVALID_API")
    case InvalidLicense => Some("INVALID_LICENSE")
    case NotConnectedWithMethod => Some("NOT_CONNECTED_WITH_METHOD")
    case NotRegisteredUser => Some("NOT_REGISTERED_USER")
    case CannotFindWithKakao => Some("CANNOT_FIND_WITH_KAKAO")
    case AlreadyConnectWithMethod => Some("ALREADY_CONNECT_WITH_METHOD")
    case CannotFindUser => Some("CANNOT_FIND_USER")
    case AlreadyRegisteredUser => Some("ALREADY_REGISTERED_USER")
    case InvalidPhoneValidateCode => Some("INVALID_PHONE_VALIDATE_CODE")
    case RetryPhoneValidate => Some("RETRY_PHONE_VALIDATE")
    case CannotFindSession => Some("CANNOT_FIND_SESSION")
    case InvalidMessagingToken => Some("INVALID_MESSAGING_TOKEN")
    case RequiredLicense => Some("REQUIRED_LICENSE")
  }

  /** What a factory call may add: `WrapperResultLazyProps`. */
  datatype Lazy = Lazy(details: Option<Details>, args: Option<seq<string>>, res: Option<nat>)

  const NoLazy := Lazy(None, None, None)

  /**
   * `$_$(opcode, statusCode, message, reportable)(lazyOptions)`: the fixed
   * fields come from the factory, the lazy options add only details, args and res.
   */
  function Factory(opcode: int, statusCode: int, message: Option<string>, reportable: Option<bool>, lazy: Lazy)
    : (w: WrapperResult)
    ensures w.name == "Result" && w.opcode == opcode
    ensures statusCode != 0 ==> w.statusCode == statusCode
    ensures w.reportable <==> reportable == Some(true)
    ensures w.details == lazy.details.GetOr(map[]) && w.args == lazy.args.GetOr([]) && w.res == lazy.res
  {
    NewWrapperResult(Props(opcode, statusCode, message, reportable, lazy.details, lazy.args, lazy.res))
  }

  /** `RESULT.<c>(lazy)`: a fresh result whose table fields no lazy option can change. */
  function Make(c: Code, lazy: Lazy): (w: WrapperResult)
    ensures w.name == "Result" && w.opcode == Opcode(c) && w.statusCode == Status(c)
    ensures !w.reportable
    ensures w.message == MessageKey(c).GetOr("")
    ensures w.details == lazy.details.GetOr(map[]) && w.args == lazy.args.GetOr([]) && w.res == lazy.res
  {
    StatusNonzero(c);
    Factory(Opcode(c), Status(c), MessageKey(c), None, lazy)
  }

  /** The failure `throw RESULT.<c>()`. */
  function Throw(c: Code): (f: Failure)
    ensures f.Result? && f.result.opcode == Opcode(c) && f.result.details == map[]
  {
    Result(Make(c, NoLazy))
  }

  /** The inverse of `Opcode` on the table. */
  function CodeOf(opcode: int): Option<Code> {
    match opcode
    case 0 => Some(Success)
    case 101 => Some(RequiredAccessKey)
    case 102 => Some(ExpiredAccessKey)
    case 103 => Some(PermissionDenied)
    case 104 => Some(RequiredLogin)
    case 105 => Some(InvalidError)
    case 106 => Some(FailedValidate)
    case 107 => Some(InvalidApi)
    case 108 => Some(InvalidLicense)
    case 109 => Some(NotConnectedWithMethod)
    case 100 => Some(NotRegisteredUser)
    case 110 => Some(CannotFindWithKakao)
    case 111 => Some(AlreadyConnectWithMethod)
    case 112 => Some(CannotFindUser)
    case 113 => Some(AlreadyRegisteredUser)
    case 114 => Some(InvalidPhoneValidateCode)
    case 115 => Some(RetryPhoneValidate)
    case 116 => Some(CannotFindSession)
    case 117 => Some(InvalidMessagingToken)
    case 118 => Some(RequiredLicense)
    case _ => None
  }

  lemma StatusNonzero(c: Code)
    ensures Status(c) != 0
  {
  }

  /** Reading an opcode back gives the member it came from. */
  lemma CodeOfOpcode(c: Code)
    ensures CodeOf(Opcode(c)) == Some(c)
  {
  }

  /** No two members of the table share an opcode. */
  lemma {:induction false} OpcodesDistinct(a: Code, b: Code)
    requires a != b
    ensures Opcode(a) != Opcode(b)
  {
    CodeOfOpcode(a);
    CodeOfOpcode(b);
  }

  /** SUCCESS is opcode 0 with status 200 and no message. */
  lemma SuccessEntry(lazy: Lazy)
    ensures Make(Success, lazy).opcode == 0 && Make(Success, lazy).statusCode == 200
    ensures Make(Success, lazy).message == ""
  {
  }

  /** INVALID_ERROR is 105/500 and FAILED_VALIDATE is 106/400. */
  lemma CatchAllEntries()
    ensures Opcode(InvalidError) == 105 && Status(InvalidError) == 500
    ensures Opcode(FailedValidate) == 106 && Status(FailedValidate) == 400
  {
  }

  /** Only SUCCESS has a 2xx status; every other member is an error status. */
  lemma {:induction false} OnlySuccessSucceeds(c: Code)
    ensures 200 <= Status(c) < 300 <==> c == Success
    ensures c != Success ==> 400 <= Status(c) < 600
  {
  }
}
