/**
 * What the signup chain guarantees: the validation error map names exactly
 * the offending fields with their last message, the uniqueness map names
 * exactly the taken fields, the account is created only after every check
 * passed, the session is opened only for the new account, and the request
 * ends with exactly one reply.
 */
module SignupProofs {
  import opened JsValues
  import opened Requests
  import opened UserService
  import opened UserRequestProofs
  import opened Http
  import opened SignupRoute

  // ---------------------------------------------------------------------
  // unauth and validateBody
  // ---------------------------------------------------------------------

  /** `unauth` responds 403 exactly when the session holds a user id. */
  lemma UnauthDecision(sessionUserId: JsValue)
    ensures UnauthStep(sessionUserId).Respond? <==> Truthy(sessionUserId)
    ensures UnauthStep(sessionUserId).Respond? ==> UnauthStep(sessionUserId).reply == ErrorReply(403, Str(SignOutFirst))
  {
  }

  /** Every detail's key is a key of the error map. */
  lemma {:induction false} ErrorMapHasKey(details: seq<Detail>, i: nat)
    requires i < |details|
    ensures DetailKey(details[i]) in Keys(ErrorMap(details))
  {
    var n := |details| - 1;
    var init := details[..n];
    var m := ErrorMap(init);
    var last := DetailKey(details[n]);
    assert ErrorMap(details) == Put(m, last, Str(details[n].message));
    KeysPut(m, last, Str(details[n].message));
    if i < n {
      assert init[i] == details[i];
      ErrorMapHasKey(init, i);
    }
  }

  /** Every key of the error map is the key of some detail. */
  lemma {:induction false} ErrorMapKeyOrigin(details: seq<Detail>, k: string)
    requires k in Keys(ErrorMap(details))
    ensures exists i :: 0 <= i < |details| && DetailKey(details[i]) == k
  {
    var n := |details| - 1;
    var init := details[..n];
    var last := DetailKey(details[n]);
    KeysPut(ErrorMap(init), last, Str(details[n].message));
    if k != last {
      ErrorMapKeyOrigin(init, k);
      var i :| 0 <= i < |init| && DetailKey(init[i]) == k;
      assert details[i] == init[i];
    }
  }

  /** The error map has a key exactly for the keys of the details. */
  lemma ErrorMapKeys(details: seq<Detail>, k: string)
    ensures k in Keys(ErrorMap(details)) <==> exists i :: 0 <= i < |details| && DetailKey(details[i]) == k
  {
    if k in Keys(ErrorMap(details)) {
      ErrorMapKeyOrigin(details, k);
    }
    if exists i :: 0 <= i < |details| && DetailKey(details[i]) == k {
      var i :| 0 <= i < |details| && DetailKey(details[i]) == k;
      ErrorMapHasKey(details, i);
    }
  }

  /** A later detail with the same key overwrites an earlier one: the map
      holds the message of the last detail with that key. */
  lemma {:induction false} ErrorMapLastWins(details: seq<Detail>, j: nat)
    requires j < |details|
    requires forall i :: j < i < |details| ==> DetailKey(details[i]) != DetailKey(details[j])
    ensures Get(ErrorMap(details), DetailKey(details[j])) == Str(details[j].message)
  {
    var n := |details| - 1;
    var init := details[..n];
    var m := ErrorMap(init);
    var last := DetailKey(details[n]);
    assert ErrorMap(details) == Put(m, last, Str(details[n].message));
    GetPut(m, last, Str(details[n].message), DetailKey(details[j]));
    if j < n {
      assert init[j] == details[j];
      forall i | j < i < |init| ensures DetailKey(init[i]) != DetailKey(init[j]) {
        assert init[i] == details[i];
      }
      ErrorMapLastWins(init, j);
    }
  }

  /** The error map never repeats a key. */
  lemma {:induction false} ErrorMapDistinct(details: seq<Detail>)
    ensures DistinctKeys(ErrorMap(details))
  {
    if details != [] {
      var n := |details| - 1;
      ErrorMapDistinct(details[..n]);
      DistinctPut(ErrorMap(details[..n]), DetailKey(details[n]), Str(details[n].message));
    }
  }

  /** `validateBody`: an authenticated session gets the warning; otherwise
      any detail gives 400 with a non-empty error map, and no detail passes
      the request on with the validated value. */
  lemma ValidateBodyOutcomes(sessionUserId: JsValue, validation: Validation)
    ensures var s := ValidateBodyStep(sessionUserId, validation);
            && (Truthy(sessionUserId) ==>
                  s == Respond(Reply(400, Obj([Prop("warning", Str(AlreadyAuthenticated))]))))
            && (!Truthy(sessionUserId) && validation.details != [] ==>
                  s == Respond(ErrorReply(400, Obj(ErrorMap(validation.details))))
                  && |ErrorMap(validation.details)| > 0)
            && (s.Next? <==> !Truthy(sessionUserId) && validation.details == [])
  {
    if validation.details != [] {
      ErrorMapHasKey(validation.details, 0);
    }
  }

  // ---------------------------------------------------------------------
  // validateUniqueness
  // ---------------------------------------------------------------------

  /** For an object body and completed searches: the request proceeds iff
      both totals are `=== 0`; otherwise the 400 error map has a `username`
      key iff the username total is truthy, an `email` key iff the email
      total is truthy, each with its message. */
  lemma UniquenessDecision(body: JsValue, userTotal: JsValue, emailTotal: JsValue, nodeEnv: JsValue)
    requires body.Obj?
    ensures var s := ValidateUniquenessStep(body, Normal((userTotal, emailTotal)), nodeEnv);
            var errors := UniquenessErrors(Get(body.props, "username"), Get(body.props, "email"), userTotal, emailTotal);
            && (s.Next? <==> IsZero(userTotal) && IsZero(emailTotal))
            && (s.Respond? ==> s.reply == ErrorReply(400, Obj(errors)))
            && ("username" in Keys(errors) <==> Truthy(userTotal))
            && ("email" in Keys(errors) <==> Truthy(emailTotal))
            && (Truthy(userTotal) ==>
                  Get(errors, "username") == Str(UsedMessage("Username", Get(body.props, "username"))))
            && (Truthy(emailTotal) ==>
                  Get(errors, "email") == Str(UsedMessage("Email", Get(body.props, "email"))))
  {
    var username, email := Get(body.props, "username"), Get(body.props, "email");
    var withUser := if Truthy(userTotal) then Put([], "username", Str(UsedMessage("Username", username))) else [];
    KeysPut([], "username", Str(UsedMessage("Username", username)));
    KeysPut(withUser, "email", Str(UsedMessage("Email", email)));
    GetPut([], "username", Str(UsedMessage("Username", username)), "username");
    GetPut(withUser, "email", Str(UsedMessage("Email", email)), "username");
    GetPut(withUser, "email", Str(UsedMessage("Email", email)), "email");
  }

  /** With numeric totals (not NaN), a rejected signup always names at
      least one taken field. */
  lemma NumericTotalsNameAField(body: JsValue, userTotal: JsValue, emailTotal: JsValue, nodeEnv: JsValue)
    requires body.Obj?
    requires userTotal.Num? && userTotal.text != "NaN" && emailTotal.Num? && emailTotal.text != "NaN"
    ensures var s := ValidateUniquenessStep(body, Normal((userTotal, emailTotal)), nodeEnv);
            s.Respond? ==> s.reply.body.props[0].value.props != []
  {
    UniquenessDecision(body, userTotal, emailTotal, nodeEnv);
  }

  /** A failed search, or a body that cannot be read, gives 500 with the
      environment's message. */
  lemma UniquenessFailures(body: JsValue, totals: Completion<(JsValue, JsValue)>, nodeEnv: JsValue)
    ensures totals.Throw? && !(body.Undefined? || body.Null?) ==>
              ValidateUniquenessStep(body, totals, nodeEnv)
              == Respond(ErrorReply(500, Str(EnvMessage(nodeEnv, totals.message))))
    ensures body.Undefined? || body.Null? ==>
              ValidateUniquenessStep(body, totals, nodeEnv).Respond?
              && ValidateUniquenessStep(body, totals, nodeEnv).reply.status == 500
  {
  }

  // ---------------------------------------------------------------------
  // createUser and signIn
  // ---------------------------------------------------------------------

  /** `createUser` on an object body: it issues the insert-if-absent of the
      new account once the hash is computed, records the new id for the next
      stage at the same moment, and proceeds iff the insert was applied. */
  lemma CreateUserDecision(body: JsValue, hash: Completion<string>, newId: string, applied: Completion<bool>,
                           nodeEnv: JsValue, md5: string -> string)
    requires body.Obj?
    ensures var c := CreateUserStage(body, hash, newId, applied, nodeEnv, md5);
            && (c.step.Next? <==> hash.Normal? && applied == Normal(true))
            && (c.localsUserId.Some? <==> hash.Normal?)
            && (c.localsUserId.Some? ==> c.localsUserId.value == Str(newId))
            && (c.write.Some? <==> hash.Normal?)
            && (c.write.Some? ==>
                  && c.write.value.Insert? && c.write.value.table == "user"
                  && c.write.value.options == WriteOptions(IfNotExists, Undefined)
                  && Get(c.write.value.row, "id") == Str(newId)
                  && Get(c.write.value.row, "hash_password") == Str(hash.value)
                  && Get(c.write.value.row, "username") == Get(body.props, "username")
                  && Get(c.write.value.row, "email") == Get(body.props, "email")
                  && Get(c.write.value.row, "type") == Get(body.props, "type"))
            && (hash.Normal? && applied == Normal(false) ==> c.step == Respond(ErrorReply(500, Str(GenericError))))
            && (hash.Throw? ==> c.step == Respond(ErrorReply(500, Str(EnvMessage(nodeEnv, hash.message)))))
            && (hash.Normal? && applied.Throw? ==>
                  c.step == Respond(ErrorReply(500, Str(EnvMessage(nodeEnv, applied.message)))))
  {
    if hash.Normal? {
      var user := NewUser(Str(newId), Get(body.props, "email"), Str(hash.value), Get(body.props, "username"),
                          Get(body.props, "type"));
      CreateUserRow(user, Undefined, md5);
    }
  }

  /** `signIn`: a found account opens the session for it, sets a cookie
      holding the stored profile without its password hash, and answers 200;
      a missing one answers 201 and leaves the session closed; a failed
      lookup answers 500 with the error's message. */
  lemma SignInDecision(localsUserId: JsValue, profile: Completion<Option<seq<Prop>>>, k: string)
    ensures var si := SignInStep(localsUserId, profile);
            && (profile.Normal? && profile.value.Some? ==>
                  && si.reply.status == 200
                  && si.sessionUserId == Some(localsUserId)
                  && si.cookie.Some? && si.cookie.value.Obj?
                  && "hash_password" !in Keys(si.cookie.value.props)
                  && (k in Keys(si.cookie.value.props) <==> k in Keys(profile.value.value) && k != "hash_password")
                  && (k != "hash_password" ==> Get(si.cookie.value.props, k) == Get(profile.value.value, k)))
            && (profile.Normal? && profile.value.None? ==>
                  si.reply.status == 201 && si.sessionUserId.None? && si.cookie.None?)
            && (profile.Throw? ==>
                  si.reply == ErrorReply(500, Str(profile.message)) && si.sessionUserId.None? && si.cookie.None?)
  {
    if profile.Normal? && profile.value.Some? {
      KeysRemove(profile.value.value, "hash_password");
      GetRemove(profile.value.value, "hash_password", k);
    }
  }

  // ---------------------------------------------------------------------
  // The chain
  // ---------------------------------------------------------------------

  predicate Readable(v: JsValue)
  {
    !v.Undefined? && !v.Null?
  }

  /** `validateUniqueness` passes the request on exactly when the body can
      be read, both searches completed and both totals are `=== 0`; it
      otherwise answers 400 or 500. */
  lemma UniquenessStatuses(body: JsValue, totals: Completion<(JsValue, JsValue)>, nodeEnv: JsValue)
    ensures var s := ValidateUniquenessStep(body, totals, nodeEnv);
            && (s.Next? <==> Readable(body) && totals.Normal? && IsZero(totals.value.0) && IsZero(totals.value.1))
            && (s.Respond? ==> s.reply.status in {400, 500})
  {
  }

  /** `createUser` passes the request on exactly when the body can be read,
      the hash was computed and the insert was applied; it otherwise answers
      500. It issues the insert-if-absent iff the body is readable and the
      hash was computed, and only then sets the new id. */
  lemma CreateUserStatuses(body: JsValue, hash: Completion<string>, newId: string, applied: Completion<bool>,
                           nodeEnv: JsValue, md5: string -> string)
    ensures var c := CreateUserStage(body, hash, newId, applied, nodeEnv, md5);
            && (c.step.Next? <==> Readable(body) && hash.Normal? && applied == Normal(true))
            && (c.step.Respond? ==> c.step.reply.status == 500)
            && (c.write.Some? <==> Readable(body) && hash.Normal?)
            && (c.localsUserId.Some? <==> c.write.Some?)
            && (c.localsUserId.Some? ==> c.localsUserId.value == Str(newId))
            && (c.write.Some? ==> c.write.value.Insert? && c.write.value.options.condition == IfNotExists)
  {
    if Readable(body) && hash.Normal? {
      var user := NewUser(Str(newId), Field(body, "email").value, Str(hash.value), Field(body, "username").value,
                          Field(body, "type").value);
      CreateUserRow(user, Undefined, md5);
    }
  }

  /** With `NODE_ENV` set to "production", no 500 from `validateUniqueness`
      or `createUser` shows an error's own text: each carries the fixed
      message. */
  lemma ProductionHidesErrors(body: JsValue, totals: Completion<(JsValue, JsValue)>, hash: Completion<string>,
                              newId: string, applied: Completion<bool>, md5: string -> string)
    ensures var s := ValidateUniquenessStep(body, totals, Str("production"));
            s.Respond? && s.reply.status == 500 ==> s.reply == ErrorReply(500, Str(GenericError))
    ensures var c := CreateUserStage(body, hash, newId, applied, Str("production"), md5);
            c.step.Respond? ==> c.step.reply == ErrorReply(500, Str(GenericError))
  {
  }

  /** In any other environment the thrown error's message reaches the reply
      as its `error`: a failed search, an unreadable body, a failed hash and
      a failed insert alike. */
  lemma OtherEnvironmentsForwardErrors(body: JsValue, m: string, h: string, newId: string,
                                       nodeEnv: JsValue, md5: string -> string)
    requires !StrictEquals(nodeEnv, Str("production"))
    ensures Readable(body) ==>
              ValidateUniquenessStep(body, Throw(m), nodeEnv) == Respond(ErrorReply(500, Str(m)))
    ensures !Readable(body) ==>
              ValidateUniquenessStep(body, Throw(m), nodeEnv)
              == Respond(ErrorReply(500, Str(Field(body, "username").message)))
    ensures Readable(body) ==>
              CreateUserStage(body, Throw(m), newId, Normal(true), nodeEnv, md5).step
              == Respond(ErrorReply(500, Str(m)))
    ensures Readable(body) ==>
              CreateUserStage(body, Normal(h), newId, Throw(m), nodeEnv, md5).step
              == Respond(ErrorReply(500, Str(m)))
  {
  }

  /** `signIn` answers 200 when the account is found, 201 when it is not,
      500 when the lookup fails, and opens the session only on 200. */
  lemma SignInStatuses(localsUserId: JsValue, profile: Completion<Option<seq<Prop>>>)
    ensures var si := SignInStep(localsUserId, profile);
            && si.reply.status in {200, 201, 500}
            && (si.reply.status in {200, 201} <==> profile.Normal?)
            && (si.reply.status == 200 <==> si.sessionUserId.Some?)
            && (si.reply.status == 200 ==> si.sessionUserId == Some(localsUserId) && si.cookie.Some?)
            && (si.reply.status != 200 ==> si.cookie.None?)
  {
  }

  const Warning := Reply(400, Obj([Prop("warning", Str(AlreadyAuthenticated))]))

  /** What the chain guarantees from `createUser` on. */
  lemma CreateAndSignInFacts(sessionUserId: JsValue, body: JsValue, localsUserId: JsValue, inputs: SignupInputs)
    ensures var o := CreateAndSignIn(sessionUserId, body, localsUserId, inputs);
            && o.reply != Warning
            && o.reply.status in {200, 201, 500}
            && (o.reply.status in {200, 201} <==>
                  Readable(body) && inputs.hash.Normal? && inputs.applied == Normal(true) && inputs.profile.Normal?)
            && (o.reply.status == 200 ==>
                  o.sessionUserId == Str(inputs.newId) && o.localsUserId == Str(inputs.newId) && o.cookie.Some?)
            && (o.reply.status != 200 ==> o.sessionUserId == sessionUserId && o.cookie.None?)
            && (o.write.Some? ==>
                  Readable(body) && inputs.hash.Normal?
                  && o.write.value.Insert? && o.write.value.options.condition == IfNotExists)
  {
    var o := CreateAndSignIn(sessionUserId, body, localsUserId, inputs);
    var c := CreateUserStage(body, inputs.hash, inputs.newId, inputs.applied, inputs.nodeEnv, inputs.md5);
    CreateUserStatuses(body, inputs.hash, inputs.newId, inputs.applied, inputs.nodeEnv, inputs.md5);
    if c.step.Respond? {
      assert o.reply == c.step.reply && o.write == c.write;
    } else {
      var si := SignInStep(c.localsUserId.value, inputs.profile);
      SignInStatuses(c.localsUserId.value, inputs.profile);
      assert o.reply == si.reply && o.write == c.write && o.cookie == si.cookie;
    }
  }

  /** What the chain guarantees from `validateUniqueness` on. */
  lemma RegisterFacts(sessionUserId: JsValue, body: JsValue, localsUserId: JsValue, inputs: SignupInputs)
    ensures var o := Register(sessionUserId, body, localsUserId, inputs);
            && o.reply != Warning
            && o.reply.status in {200, 201, 400, 500}
            && (o.reply.status in {200, 201} <==>
                  && Readable(body)
                  && inputs.totals.Normal? && IsZero(inputs.totals.value.0) && IsZero(inputs.totals.value.1)
                  && inputs.hash.Normal? && inputs.applied == Normal(true) && inputs.profile.Normal?)
            && (o.reply.status == 200 ==>
                  o.sessionUserId == Str(inputs.newId) && o.localsUserId == Str(inputs.newId) && o.cookie.Some?)
            && (o.reply.status != 200 ==> o.sessionUserId == sessionUserId && o.cookie.None?)
            && (o.write.Some? ==>
                  && Readable(body)
                  && inputs.totals.Normal? && IsZero(inputs.totals.value.0) && IsZero(inputs.totals.value.1)
                  && inputs.hash.Normal?
                  && o.write.value.Insert? && o.write.value.options.condition == IfNotExists)
  {
    var o := Register(sessionUserId, body, localsUserId, inputs);
    var s3 := ValidateUniquenessStep(body, inputs.totals, inputs.nodeEnv);
    UniquenessStatuses(body, inputs.totals, inputs.nodeEnv);
    if s3.Respond? {
      assert o.reply == s3.reply && o.write.None? && o.cookie.None? && o.sessionUserId == sessionUserId;
      assert o.reply.body.props[0].key == "error";
    } else {
      CreateAndSignInFacts(sessionUserId, body, localsUserId, inputs);
    }
  }

  /** An authenticated session is turned away with 403 before anything
      else happens. */
  lemma AuthenticatedRejected(sessionUserId: JsValue, body: JsValue, localsUserId: JsValue, inputs: SignupInputs)
    requires Truthy(sessionUserId)
    ensures var o := Signup(sessionUserId, body, localsUserId, inputs);
            && o.reply == ErrorReply(403, Str(SignOutFirst))
            && o.sessionUserId == sessionUserId && o.body == body && o.localsUserId == localsUserId
            && o.cookie.None? && o.write.None?
  {
  }

  /** Because `unauth` runs first, the `validateBody` warning is never sent,
      and every reply has one of five statuses. */
  lemma ChainReplies(sessionUserId: JsValue, body: JsValue, localsUserId: JsValue, inputs: SignupInputs)
    ensures var o := Signup(sessionUserId, body, localsUserId, inputs);
            o.reply != Warning && o.reply.status in {200, 201, 400, 403, 500}
  {
    if !Truthy(sessionUserId) && inputs.validation.details == [] {
      RegisterFacts(sessionUserId, inputs.validation.value, localsUserId, inputs);
    }
  }

  /** The account is inserted only for an unauthenticated request whose
      body validated and whose username and email are both unused. */
  lemma WriteOnlyAfterChecks(sessionUserId: JsValue, body: JsValue, localsUserId: JsValue, inputs: SignupInputs)
    ensures var o := Signup(sessionUserId, body, localsUserId, inputs);
            o.write.Some? ==>
              && !Truthy(sessionUserId) && inputs.validation.details == []
              && Readable(inputs.validation.value)
              && inputs.totals.Normal? && IsZero(inputs.totals.value.0) && IsZero(inputs.totals.value.1)
              && inputs.hash.Normal?
              && o.write.value.Insert? && o.write.value.options.condition == IfNotExists
  {
    if !Truthy(sessionUserId) && inputs.validation.details == [] {
      RegisterFacts(sessionUserId, inputs.validation.value, localsUserId, inputs);
    }
  }

  /** The chain succeeds (200 or 201) exactly when every stage passed: no
      session, a valid body, both names unused, the hash computed, the insert
      applied, and the profile lookup completed. */
  lemma ChainSucceeds(sessionUserId: JsValue, body: JsValue, localsUserId: JsValue, inputs: SignupInputs)
    ensures var o := Signup(sessionUserId, body, localsUserId, inputs);
            o.reply.status in {200, 201} <==>
              && !Truthy(sessionUserId) && inputs.validation.details == []
              && Readable(inputs.validation.value)
              && inputs.totals.Normal? && IsZero(inputs.totals.value.0) && IsZero(inputs.totals.value.1)
              && inputs.hash.Normal? && inputs.applied == Normal(true)
              && inputs.profile.Normal?
  {
    if !Truthy(sessionUserId) && inputs.validation.details == [] {
      RegisterFacts(sessionUserId, inputs.validation.value, localsUserId, inputs);
    }
  }

  /** On 200 the session holds the new account's id and the profile cookie
      is set; on any other status the session stays as it was and no cookie
      is set. */
  lemma ChainSession(sessionUserId: JsValue, body: JsValue, localsUserId: JsValue, inputs: SignupInputs)
    ensures var o := Signup(sessionUserId, body, localsUserId, inputs);
            && (o.reply.status == 200 ==>
                  o.sessionUserId == Str(inputs.newId) && o.localsUserId == Str(inputs.newId) && o.cookie.Some?)
            && (o.reply.status != 200 ==> o.sessionUserId == sessionUserId && o.cookie.None?)
  {
    if !Truthy(sessionUserId) && inputs.validation.details == [] {
      RegisterFacts(sessionUserId, inputs.validation.value, localsUserId, inputs);
    }
  }
}
