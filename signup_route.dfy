/**
 * The signup route: five middleware stages run in order (`unauth`,
 * `validateBody`, `validateUniqueness`, `createUser`, `signIn`). Each stage
 * either responds or passes the request on. The stores, the schema
 * validator, the password hash and the id generator are inputs: their
 * results are given, not computed.
 */
module SignupRoute {
  import opened JsValues
  import opened Requests
  import opened UserService
  import opened Http

  const GenericError := "Unexpected error occurred, please try again"
  const SignOutFirst := "You need to sign out first"
  const AlreadyAuthenticated := "You have already been authenticated"
  const NewAccount := "Create new account"

  /** The message a 500 reply carries: a fixed one in production, the
      error's own message otherwise. */
  function EnvMessage(nodeEnv: JsValue, message: string): (m: string)
  {
    if StrictEquals(nodeEnv, Str("production")) then GenericError else message
  }

  // ---------------------------------------------------------------------
  // unauth
  // ---------------------------------------------------------------------

  function UnauthStep(sessionUserId: JsValue): Step
  {
    if Truthy(sessionUserId) then Respond(ErrorReply(403, Str(SignOutFirst))) else Next
  }

  // ---------------------------------------------------------------------
  // validateBody
  // ---------------------------------------------------------------------

  /** One validation error: the path of the offending value and the
      rendered message. */
  datatype Detail = Detail(path: seq<JsValue>, message: string)

  /** The validator's result: its error details (none when the body is
      valid) and the converted value. */
  datatype Validation = Validation(details: seq<Detail>, value: JsValue)

  /** `result[value.path[0]]`: the property key is `String(path[0])`, and
      "undefined" for an empty path. */
  function DetailKey(d: Detail): string
  {
    if d.path == [] then "undefined" else ToJsString(d.path[0])
  }

  /** The error map `_.reduce` builds: each detail assigns its message to its
      key, left to right. */
  function ErrorMap(details: seq<Detail>): seq<Prop>
  {
    if details == [] then []
    else
      var last := details[|details| - 1];
      Put(ErrorMap(details[..|details| - 1]), DetailKey(last), Str(last.message))
  }

  /** The reduce as the source runs it: one accumulator object, assigned
      into once per detail. */
  method BuildErrorMap(details: seq<Detail>) returns (result: seq<Prop>)
    ensures result == ErrorMap(details)
  {
    result := [];
    var i := 0;
    while i < |details|
      invariant 0 <= i <= |details|
      invariant result == ErrorMap(details[..i])
    {
      assert details[..i + 1][..i] == details[..i];
      result := Put(result, DetailKey(details[i]), Str(details[i].message));
      i := i + 1;
    }
    assert details[..i] == details;
  }

  function ValidateBodyStep(sessionUserId: JsValue, validation: Validation): Step
  {
    if !Truthy(sessionUserId) then
      if validation.details != [] then Respond(ErrorReply(400, Obj(ErrorMap(validation.details))))
      else Next
    else Respond(Reply(400, Obj([Prop("warning", Str(AlreadyAuthenticated))])))
  }

  // ---------------------------------------------------------------------
  // validateUniqueness
  // ---------------------------------------------------------------------

  function UsedMessage(subject: string, value: JsValue): string
  {
    subject + " \"" + ToJsString(value) + "\" has already been used"
  }

  /** The uniqueness error map: a key for each search whose total is
      truthy. */
  function UniquenessErrors(username: JsValue, email: JsValue, userTotal: JsValue, emailTotal: JsValue): seq<Prop>
  {
    var withUser := if Truthy(userTotal) then Put([], "username", Str(UsedMessage("Username", username))) else [];
    if Truthy(emailTotal) then Put(withUser, "email", Str(UsedMessage("Email", email))) else withUser
  }

  predicate IsZero(total: JsValue)
  {
    StrictEquals(total, Num("0"))
  }

  /** `totals` is the outcome of the two searches run together: the two
      `hits.total` values, or the first rejection. */
  function ValidateUniquenessStep(body: JsValue, totals: Completion<(JsValue, JsValue)>, nodeEnv: JsValue): Step
  {
    var username := Field(body, "username");
    if username.Throw? then Respond(ErrorReply(500, Str(EnvMessage(nodeEnv, username.message))))
    else
      var email := Field(body, "email").value;
      match totals
      case Throw(m) => Respond(ErrorReply(500, Str(EnvMessage(nodeEnv, m))))
      case Normal((userTotal, emailTotal)) =>
        if IsZero(userTotal) && IsZero(emailTotal) then Next
        else Respond(ErrorReply(400, Obj(UniquenessErrors(username.value, email, userTotal, emailTotal))))
  }

  // ---------------------------------------------------------------------
  // createUser
  // ---------------------------------------------------------------------

  /** What `createUser` decides, the id it leaves in `res.locals.userId`,
      and the insert it issues. */
  datatype CreateStage = CreateStage(step: Step, localsUserId: Option<JsValue>, write: Option<MapperWrite>)

  /** `hash` is the bcrypt outcome, `newId` the fresh random id, `applied`
      the outcome of the conditional insert. */
  function CreateUserStage(body: JsValue, hash: Completion<string>, newId: string, applied: Completion<bool>,
                           nodeEnv: JsValue, md5: string -> string): CreateStage
  {
    var password := Field(body, "password");
    if password.Throw? then CreateStage(Respond(ErrorReply(500, Str(EnvMessage(nodeEnv, password.message)))), None, None)
    else match hash
      case Throw(m) => CreateStage(Respond(ErrorReply(500, Str(EnvMessage(nodeEnv, m)))), None, None)
      case Normal(h) =>
        var user := NewUser(Str(newId), Field(body, "email").value, Str(h), Field(body, "username").value,
                            Field(body, "type").value);
        var write := CreateUser(user, Undefined, md5);
        match applied
        case Throw(m) => CreateStage(Respond(ErrorReply(500, Str(EnvMessage(nodeEnv, m)))), Some(Str(newId)), Some(write))
        case Normal(true) => CreateStage(Next, Some(Str(newId)), Some(write))
        case Normal(false) => CreateStage(Respond(ErrorReply(500, Str(GenericError))), Some(Str(newId)), Some(write))
  }

  // ---------------------------------------------------------------------
  // signIn
  // ---------------------------------------------------------------------

  /** The reply, the new `session.userId`, and the `lms.user` cookie. */
  datatype SignInStage = SignInStage(reply: Reply, sessionUserId: Option<JsValue>, cookie: Option<JsValue>)

  /** `profile` is the outcome of the lookup by id: the stored document's
      source when found. */
  function SignInStep(localsUserId: JsValue, profile: Completion<Option<seq<Prop>>>): SignInStage
  {
    match profile
    case Throw(m) => SignInStage(ErrorReply(500, Str(m)), None, None)
    case Normal(Some(source)) =>
      SignInStage(Reply(200, Obj([Prop("successful", Bool(true))])), Some(localsUserId),
                  Some(Obj(Remove(source, "hash_password"))))
    case Normal(None) =>
      SignInStage(Reply(201, Obj([Prop("successful", Bool(true)), Prop("message", Str(NewAccount))])), None, None)
  }

  // ---------------------------------------------------------------------
  // The whole chain
  // ---------------------------------------------------------------------

  /** Everything the chain learns from outside. */
  datatype SignupInputs = SignupInputs(
    validation: Validation,
    totals: Completion<(JsValue, JsValue)>,
    hash: Completion<string>,
    newId: string,
    applied: Completion<bool>,
    profile: Completion<Option<seq<Prop>>>,
    nodeEnv: JsValue,
    md5: string -> string)

  /** The reply and the request state once the chain has run. */
  datatype Outcome = Outcome(reply: Reply, sessionUserId: JsValue, body: JsValue, localsUserId: JsValue,
                             cookie: Option<JsValue>, write: Option<MapperWrite>)

  /** `post('/', unauth, validateBody, validateUniqueness, createUser,
      signIn)`. */
  function Signup(sessionUserId: JsValue, body: JsValue, localsUserId: JsValue, inputs: SignupInputs): Outcome
  {
    var s1 := UnauthStep(sessionUserId);
    if s1.Respond? then Outcome(s1.reply, sessionUserId, body, localsUserId, None, None)
    else
      var s2 := ValidateBodyStep(sessionUserId, inputs.validation);
      if s2.Respond? then Outcome(s2.reply, sessionUserId, body, localsUserId, None, None)
      else Register(sessionUserId, inputs.validation.value, localsUserId, inputs)
  }

  /** The chain from `validateUniqueness` on, once the body was replaced by
      the validated value. */
  function Register(sessionUserId: JsValue, body: JsValue, localsUserId: JsValue, inputs: SignupInputs): Outcome
  {
    var s3 := ValidateUniquenessStep(body, inputs.totals, inputs.nodeEnv);
    if s3.Respond? then Outcome(s3.reply, sessionUserId, body, localsUserId, None, None)
    else CreateAndSignIn(sessionUserId, body, localsUserId, inputs)
  }

  /** The chain from `createUser` on. */
  function CreateAndSignIn(sessionUserId: JsValue, body: JsValue, localsUserId: JsValue, inputs: SignupInputs): Outcome
  {
    var c := CreateUserStage(body, inputs.hash, inputs.newId, inputs.applied, inputs.nodeEnv, inputs.md5);
    var locals2 := if c.localsUserId.Some? then c.localsUserId.value else localsUserId;
    if c.step.Respond? then Outcome(c.step.reply, sessionUserId, body, locals2, None, c.write)
    else
      var si := SignInStep(locals2, inputs.profile);
      Outcome(si.reply, if si.sessionUserId.Some? then si.sessionUserId.value else sessionUserId,
              body, locals2, si.cookie, c.write)
  }

  // ---------------------------------------------------------------------
  // The request/response pair, updated in place
  // ---------------------------------------------------------------------

  /** The request and response objects the stages share: `req.session`,
      `req.body`, `res.locals`, the cookie jar, the reply sent, and the
      inserts issued. */
  class SignupExchange {
    var sessionUserId: JsValue
    var body: JsValue
    var localsUserId: JsValue
    var cookie: Option<JsValue>
    var reply: Option<Reply>
    var writes: seq<MapperWrite>

    constructor (sessionUserId: JsValue, body: JsValue)
      ensures this.sessionUserId == sessionUserId && this.body == body
      ensures localsUserId == Undefined && cookie == None && reply == None && writes == []
    {
      this.sessionUserId := sessionUserId;
      this.body := body;
      localsUserId := Undefined;
      cookie := None;
      reply := None;
      writes := [];
    }

    method Unauth() returns (s: Step)
      modifies this
      ensures s == UnauthStep(old(sessionUserId))
      ensures reply == (if s.Respond? then Some(s.reply) else old(reply))
      ensures sessionUserId == old(sessionUserId) && body == old(body) && localsUserId == old(localsUserId)
      ensures cookie == old(cookie) && writes == old(writes)
    {
      s := UnauthStep(sessionUserId);
      if s.Respond? {
        reply := Some(s.reply);
      }
    }

    method ValidateBody(validation: Validation) returns (s: Step)
      modifies this
      ensures s == ValidateBodyStep(old(sessionUserId), validation)
      ensures reply == (if s.Respond? then Some(s.reply) else old(reply))
      ensures body == (if s.Next? then validation.value else old(body))
      ensures sessionUserId == old(sessionUserId) && localsUserId == old(localsUserId)
      ensures cookie == old(cookie) && writes == old(writes)
    {
      if !Truthy(sessionUserId) {
        if validation.details != [] {
          var errors := BuildErrorMap(validation.details);
          s := Respond(ErrorReply(400, Obj(errors)));
          reply := Some(s.reply);
        } else {
          body := validation.value;
          s := Next;
        }
      } else {
        s := Respond(Reply(400, Obj([Prop("warning", Str(AlreadyAuthenticated))])));
        reply := Some(s.reply);
      }
    }

    method ValidateUniqueness(totals: Completion<(JsValue, JsValue)>, nodeEnv: JsValue) returns (s: Step)
      modifies this
      ensures s == ValidateUniquenessStep(old(body), totals, nodeEnv)
      ensures reply == (if s.Respond? then Some(s.reply) else old(reply))
      ensures sessionUserId == old(sessionUserId) && body == old(body) && localsUserId == old(localsUserId)
      ensures cookie == old(cookie) && writes == old(writes)
    {
      s := ValidateUniquenessStep(body, totals, nodeEnv);
      if s.Respond? {
        reply := Some(s.reply);
      }
    }

    method CreateUser(hash: Completion<string>, newId: string, applied: Completion<bool>,
                      nodeEnv: JsValue, md5: string -> string) returns (s: Step)
      modifies this
      ensures var c := CreateUserStage(old(body), hash, newId, applied, nodeEnv, md5);
              && s == c.step
              && localsUserId == (if c.localsUserId.Some? then c.localsUserId.value else old(localsUserId))
              && writes == old(writes) + (if c.write.Some? then [c.write.value] else [])
      ensures reply == (if s.Respond? then Some(s.reply) else old(reply))
      ensures sessionUserId == old(sessionUserId) && body == old(body) && cookie == old(cookie)
    {
      var c := CreateUserStage(body, hash, newId, applied, nodeEnv, md5);
      if c.localsUserId.Some? {
        localsUserId := c.localsUserId.value;
      }
      if c.write.Some? {
        writes := writes + [c.write.value];
      }
      s := c.step;
      if s.Respond? {
        reply := Some(s.reply);
      }
    }

    method SignIn(profile: Completion<Option<seq<Prop>>>)
      modifies this
      ensures var si := SignInStep(old(localsUserId), profile);
              && reply == Some(si.reply)
              && sessionUserId == (if si.sessionUserId.Some? then si.sessionUserId.value else old(sessionUserId))
              && cookie == (if si.cookie.Some? then si.cookie else old(cookie))
      ensures body == old(body) && localsUserId == old(localsUserId) && writes == old(writes)
    {
      var si := SignInStep(localsUserId, profile);
      if si.sessionUserId.Some? {
        sessionUserId := si.sessionUserId.value;
      }
      if si.cookie.Some? {
        cookie := si.cookie;
      }
      reply := Some(si.reply);
    }

    /** The chain: each stage runs only when the one before called `next`. */
    method Run(inputs: SignupInputs)
      modifies this
      requires reply == None && cookie == None && writes == []
      ensures var o := Signup(old(sessionUserId), old(body), old(localsUserId), inputs);
              && reply == Some(o.reply)
              && sessionUserId == o.sessionUserId && body == o.body && localsUserId == o.localsUserId
              && cookie == o.cookie
              && writes == (if o.write.Some? then [o.write.value] else [])
    {
      var s := Unauth();
      if s.Respond? {
        return;
      }
      s := ValidateBody(inputs.validation);
      if s.Respond? {
        return;
      }
      s := ValidateUniqueness(inputs.totals, inputs.nodeEnv);
      if s.Respond? {
        return;
      }
      s := CreateUser(inputs.hash, inputs.newId, inputs.applied, inputs.nodeEnv, inputs.md5);
      if s.Respond? {
        return;
      }
      SignIn(inputs.profile);
    }
  }
}
