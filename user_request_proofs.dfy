/**
 * What the user service's rendered statements and mapper writes promise:
 * one parameter per placeholder, parameters in the order of the groups,
 * `IF EXISTS` on both info statements, `USING TTL` only on the update and
 * only for a numeric ttl, and an avatar that only the email decides.
 */
module UserRequestProofs {
  import opened JsValues
  import opened Requests
  import opened UserService
  import opened UserInfoProofs

  predicate StartsWith(s: string, prefix: string)
  {
    |prefix| <= |s| && s[..|prefix|] == prefix
  }

  predicate EndsWith(s: string, suffix: string)
  {
    |suffix| <= |s| && s[|s| - |suffix|..] == suffix
  }

  // ---------------------------------------------------------------------
  // Joined placeholder lists
  // ---------------------------------------------------------------------

  /** Joining `n` copies of `part` puts `n` times its `c`s in the text when
      the separator has none. */
  lemma {:induction false} JoinRepeatOccurrences(part: string, n: nat, sep: string, c: char)
    requires c !in sep
    ensures Occurrences(JoinWith(Repeat(part, n), sep), c) == n * Occurrences(part, c)
  {
    if n > 1 {
      var parts := Repeat(part, n);
      assert parts[1..] == Repeat(part, n - 1);
      JoinRepeatOccurrences(part, n - 1, sep, c);
      OccurrencesAppend(part + sep, JoinWith(parts[1..], sep), c);
      OccurrencesAppend(part, sep, c);
      OccurrencesAbsent(sep, c);
    } else if n == 1 {
      assert Repeat(part, 1) == [part];
    }
  }

  /** Every character of the joined text comes from the part or the
      separator. */
  lemma {:induction false} JoinRepeatChars(part: string, n: nat, sep: string, c: char)
    requires c !in part && c !in sep
    ensures c !in JoinWith(Repeat(part, n), sep)
  {
    if n > 1 {
      var parts := Repeat(part, n);
      assert parts[1..] == Repeat(part, n - 1);
      JoinRepeatChars(part, n - 1, sep, c);
    } else if n == 1 {
      assert Repeat(part, 1) == [part];
    }
  }

  lemma {:induction false} FlattenPairsAt(updates: seq<(string, string)>, i: nat)
    requires i < |updates|
    ensures FlattenPairs(updates)[2 * i] == Str(updates[i].0)
    ensures FlattenPairs(updates)[2 * i + 1] == Str(updates[i].1)
  {
    if i > 0 {
      FlattenPairsAt(updates[1..], i - 1);
    }
  }

  // ---------------------------------------------------------------------
  // The two statements of the info batch
  // ---------------------------------------------------------------------

  lemma {:induction false} OccurrencesOnce(a: string, b: string, c: char)
    requires c !in a && c !in b
    ensures Occurrences(a + [c] + b, c) == 1
  {
    OccurrencesAppend(a + [c], b, c);
    OccurrencesAppend(a, [c], c);
    OccurrencesAbsent(a, c);
    OccurrencesAbsent(b, c);
  }

  /** Placeholders of a text made of a placeholder-free head, a joined list
      and a tail. */
  lemma {:induction false} PlaceholdersOfParts(head: string, list: string, tail: string)
    requires '?' !in head
    ensures Placeholders(head + list + tail) == Occurrences(list, '?') + Occurrences(tail, '?')
  {
    OccurrencesAbsent(head, '?');
    OccurrencesAppend(head, list, '?');
    OccurrencesAppend(head + list, tail, '?');
  }

  lemma UpdateTailPlaceholders()
    ensures Occurrences(" WHERE id = ? IF EXISTS", '?') == 1
  {
    assert " WHERE id = ? IF EXISTS" == " WHERE id = " + ['?'] + " IF EXISTS";
    OccurrencesOnce(" WHERE id = ", " IF EXISTS", '?');
  }

  lemma DeleteTailPlaceholders()
    ensures Occurrences(" FROM user WHERE id = ? IF EXISTS", '?') == 1
  {
    assert " FROM user WHERE id = ? IF EXISTS" == " FROM user WHERE id = " + ['?'] + " IF EXISTS";
    OccurrencesOnce(" FROM user WHERE id = ", " IF EXISTS", '?');
  }

  lemma NumericTtlHead(t: string, rest: string)
    ensures StartsWith("UPDATE user " + ("USING TTL " + t) + rest, "UPDATE user USING TTL ")
  {
    var p := "UPDATE user USING TTL ";
    assert "UPDATE user " + ("USING TTL " + t) + rest == p + (t + rest);
    assert (p + (t + rest))[..|p|] == p;
  }

  lemma NoTtlHead(rest: string)
    ensures StartsWith("UPDATE user " + "" + rest, "UPDATE user USING TTL ") <==> StartsWith(rest, "USING TTL ")
  {
    var q := "UPDATE user " + rest;
    assert "UPDATE user " + "" + rest == q;
    if StartsWith(q, "UPDATE user USING TTL ") {
      assert rest[..10] == q[12..22];
    }
    if StartsWith(rest, "USING TTL ") {
      assert q[..22] == "UPDATE user " + rest[..10];
    }
  }

  /** The head `UPDATE user <ttl clause> ` starts with `UPDATE user USING
      TTL ` exactly when the ttl is a number. */
  lemma TtlHead(ttl: JsValue, rest: string)
    ensures StartsWith("UPDATE user " + TtlClause(ttl) + rest, "UPDATE user USING TTL ")
        <==> ttl.Num? || StartsWith(rest, "USING TTL ")
  {
    if ttl.Num? {
      NumericTtlHead(ttl.text, rest);
    } else {
      NoTtlHead(rest);
    }
  }

  /** A head without placeholders, a list, then the update's tail. */
  lemma UpdateTailCount(head: string, list: string)
    requires '?' !in head
    ensures Placeholders(head + list + " WHERE id = ? IF EXISTS") == Occurrences(list, '?') + 1
  {
    UpdateTailPlaceholders();
    PlaceholdersOfParts(head, list, " WHERE id = ? IF EXISTS");
  }

  lemma AssignListCount(n: nat)
    ensures Occurrences(JoinWith(Repeat("info[?] = ?", n), ", "), '?') == 2 * n
  {
    AssignmentPlaceholders();
    ListCount("info[?] = ?", n);
  }

  lemma ListCount(part: string, n: nat)
    requires Occurrences(part, '?') == 2
    ensures Occurrences(JoinWith(Repeat(part, n), ", "), '?') == 2 * n
  {
    JoinRepeatOccurrences(part, n, ", ", '?');
  }

  /** `info[?] = ?` holds two placeholders. */
  lemma AssignmentPlaceholders()
    ensures Occurrences("info[?] = ?", '?') == 2
  {
    assert "info[?] = ?" == "info[" + ['?'] + "] = ?";
    OccurrencesSplit("info[", "] = ?", '?');
    assert "] = ?" == "] = " + ['?'] + "";
    OccurrencesSplit("] = ", "", '?');
  }

  lemma UpdateCountFrom(q: string, head: string, n: nat)
    requires '?' !in head
    requires q == head + JoinWith(Repeat("info[?] = ?", n), ", ") + " WHERE id = ? IF EXISTS"
    ensures Placeholders(q) == 2 * n + 1
  {
    AssignListCount(n);
    UpdateTailCount(head, JoinWith(Repeat("info[?] = ?", n), ", "));
  }

  lemma UpdatePlaceholders(userId: JsValue, updates: seq<(string, string)>, ttl: JsValue)
    ensures Placeholders(UpdateStatement(userId, updates, ttl).query) == 2 * |updates| + 1
  {
    var head := "UPDATE user " + TtlClause(ttl) + " SET ";
    assert '?' !in head;
    UpdateCountFrom(UpdateStatement(userId, updates, ttl).query, head, |updates|);
  }

  lemma UpdateParams(userId: JsValue, updates: seq<(string, string)>, ttl: JsValue)
    ensures var p := UpdateStatement(userId, updates, ttl).params;
            && |p| == 2 * |updates| + 1
            && (forall i :: 0 <= i < |updates| ==> p[2 * i] == Str(updates[i].0) && p[2 * i + 1] == Str(updates[i].1))
            && p[2 * |updates|] == userId
  {
    var p := UpdateStatement(userId, updates, ttl).params;
    forall i | 0 <= i < |updates|
      ensures p[2 * i] == Str(updates[i].0) && p[2 * i + 1] == Str(updates[i].1)
    {
      FlattenPairsAt(updates, i);
    }
  }

  lemma UpdateAffixes(userId: JsValue, updates: seq<(string, string)>, ttl: JsValue)
    ensures var q := UpdateStatement(userId, updates, ttl).query;
            && EndsWith(q, " WHERE id = ? IF EXISTS")
            && (StartsWith(q, "UPDATE user USING TTL ") <==> ttl.Num?)
  {
    var list := JoinWith(Repeat("info[?] = ?", |updates|), ", ");
    var tail := " WHERE id = ? IF EXISTS";
    var rest := " SET " + list + tail;
    var q := UpdateStatement(userId, updates, ttl).query;
    assert q == "UPDATE user " + TtlClause(ttl) + rest;
    assert q == ("UPDATE user " + TtlClause(ttl) + " SET " + list) + tail;
    assert rest[0] == ' ';
    TtlHead(ttl, rest);
  }

  /** The update statement: one `info[?] = ?` per update pair and one `?`
      for the id, parameters the flattened pairs then the user id, ending in
      `IF EXISTS`, with `USING TTL` exactly when the ttl is a number. */
  lemma UpdateStatementShape(userId: JsValue, updates: seq<(string, string)>, ttl: JsValue)
    ensures var s := UpdateStatement(userId, updates, ttl);
            && Placeholders(s.query) == |s.params| == 2 * |updates| + 1
            && (forall i :: 0 <= i < |updates| ==>
                  s.params[2 * i] == Str(updates[i].0) && s.params[2 * i + 1] == Str(updates[i].1))
            && s.params[2 * |updates|] == userId
            && EndsWith(s.query, " WHERE id = ? IF EXISTS")
            && (StartsWith(s.query, "UPDATE user USING TTL ") <==> ttl.Num?)
  {
    UpdatePlaceholders(userId, updates, ttl);
    UpdateParams(userId, updates, ttl);
    UpdateAffixes(userId, updates, ttl);
  }

  lemma DeleteTailCount(head: string, list: string)
    requires '?' !in head
    ensures Placeholders(head + list + " FROM user WHERE id = ? IF EXISTS") == Occurrences(list, '?') + 1
  {
    DeleteTailPlaceholders();
    PlaceholdersOfParts(head, list, " FROM user WHERE id = ? IF EXISTS");
  }

  lemma KeyListCount(n: nat)
    ensures Occurrences(JoinWith(Repeat("info[?]", n), ", "), '?') == n
  {
    JoinRepeatOccurrences("info[?]", n, ", ", '?');
    assert Occurrences("info[?]", '?') == 1;
  }

  lemma DeletePlaceholders(userId: JsValue, deletes: seq<string>)
    ensures Placeholders(DeleteStatement(userId, deletes).query) == |deletes| + 1
  {
    var list := JoinWith(Repeat("info[?]", |deletes|), ", ");
    assert DeleteStatement(userId, deletes).query == "DELETE " + list + " FROM user WHERE id = ? IF EXISTS";
    KeyListCount(|deletes|);
    DeleteTailCount("DELETE ", list);
  }

  lemma DeleteAffixes(userId: JsValue, deletes: seq<string>)
    ensures var q := DeleteStatement(userId, deletes).query;
            && StartsWith(q, "DELETE ")
            && EndsWith(q, " FROM user WHERE id = ? IF EXISTS")
            && !Contains(q, "USING TTL")
  {
    var list := JoinWith(Repeat("info[?]", |deletes|), ", ");
    var tail := " FROM user WHERE id = ? IF EXISTS";
    var q := DeleteStatement(userId, deletes).query;
    assert q == "DELETE " + (list + tail);
    assert q == ("DELETE " + list) + tail;
    JoinRepeatChars("info[?]", |deletes|, ", ", 'U');
    assert 'U' !in tail;
    assert 'U' !in q;
    NotContainsFirst(q, "USING TTL");
  }

  /** The delete statement: one `info[?]` per delete key and one `?` for the
      id, parameters the keys then the user id, ending in `IF EXISTS`, and
      never a `USING TTL`. */
  lemma DeleteStatementShape(userId: JsValue, deletes: seq<string>)
    ensures var s := DeleteStatement(userId, deletes);
            && Placeholders(s.query) == |s.params| == |deletes| + 1
            && (forall i :: 0 <= i < |deletes| ==> s.params[i] == Str(deletes[i]))
            && s.params[|deletes|] == userId
            && StartsWith(s.query, "DELETE ")
            && EndsWith(s.query, " FROM user WHERE id = ? IF EXISTS")
            && !Contains(s.query, "USING TTL")
  {
    DeletePlaceholders(userId, deletes);
    DeleteAffixes(userId, deletes);
  }

  /** An array argument is read through its index properties: the batch is
      the one planned for the object holding them. Since `String()` is
      modelled with the default `toString` of every object, no element
      makes it throw. */
  lemma ArrayPayloadAsObject(userId: JsValue, items: seq<JsValue>, ttl: JsValue, random: Numeral)
    ensures UpdateUserInfo(userId, Arr(items), ttl, random) == UpdateUserInfo(userId, Obj(IndexProps(items)), ttl, random)
    ensures UpdateUserInfo(userId, Arr(items), ttl, random).Normal?
  {
  }

  /** `updateUserInfo` on any well-formed payload hands the store exactly
      the update statement then the delete statement of its plan, and both
      carry at least one map key besides the id. */
  lemma InfoBatchShape(userId: JsValue, newInfo: JsValue, ttl: JsValue, random: Numeral)
    requires WellFormedPayload(newInfo)
    ensures UpdateUserInfo(userId, newInfo, ttl, random).Normal?
    ensures var b := UpdateUserInfo(userId, newInfo, ttl, random).value;
            var plan := PlanInfo(newInfo, random).value;
            && |b| == 2
            && b[0] == UpdateStatement(userId, plan.updates, ttl)
            && b[1] == DeleteStatement(userId, plan.deletes)
            && Placeholders(b[0].query) == |b[0].params| >= 3
            && Placeholders(b[1].query) == |b[1].params| >= 2
  {
    var plan := PlanInfo(newInfo, random).value;
    MarkersKeepGroupsNonEmpty(newInfo, random);
    UpdateStatementShape(userId, plan.updates, ttl);
    DeleteStatementShape(userId, plan.deletes);
  }

  // ---------------------------------------------------------------------
  // The stored info map after a plan
  // ---------------------------------------------------------------------

  lemma {:induction false} UpdatesMapAt(updates: seq<(string, string)>, j: nat)
    requires forall a, b :: 0 <= a < b < |updates| ==> updates[a].0 != updates[b].0
    requires j < |updates|
    ensures UpdatesMap(updates)[updates[j].0] == updates[j].1
  {
    var last := |updates| - 1;
    if j < last {
      UpdatesMapAt(updates[..last], j);
    }
  }

  /** Whatever the payload, applying its plan leaves the stored avatar as it
      was. */
  lemma InfoUpdateKeepsImage(info: map<string, string>, newInfo: JsValue, random: Numeral)
    requires !newInfo.Null?
    ensures var after := ApplyPlan(info, PlanInfo(newInfo, random).value);
            && (ImageKey in after <==> ImageKey in info)
            && (ImageKey in info ==> after[ImageKey] == info[ImageKey])
  {
    var plan := PlanInfo(newInfo, random).value;
    ImageNeverPlanned(newInfo, random);
    assert ImageKey !in UpdatesMap(plan.updates);
  }

  /** Applying any plan: deleted keys are gone, keys in neither group keep
      their stored value. */
  lemma ApplyPlanUntouched(info: map<string, string>, plan: Plan, k: string)
    ensures k in plan.deletes ==> k !in ApplyPlan(info, plan)
    ensures k !in plan.deletes && k !in UpdateKeys(plan.updates) ==>
              (k in ApplyPlan(info, plan) <==> k in info)
              && (k in info ==> ApplyPlan(info, plan)[k] == info[k])
  {
    if k !in UpdateKeys(plan.updates) {
      assert k !in UpdatesMap(plan.updates);
    }
  }

  /** Applying a plan whose update keys are distinct: an updated key that is
      not also deleted holds its update's value. */
  lemma ApplyPlanUpdated(info: map<string, string>, plan: Plan, j: nat)
    requires forall a, b :: 0 <= a < b < |plan.updates| ==> plan.updates[a].0 != plan.updates[b].0
    requires j < |plan.updates| && plan.updates[j].0 !in plan.deletes
    ensures plan.updates[j].0 in ApplyPlan(info, plan)
    ensures ApplyPlan(info, plan)[plan.updates[j].0] == plan.updates[j].1
  {
    UpdatesMapAt(plan.updates, j);
  }

  /** The plan of a well-formed payload never names a key twice in its
      update group. */
  lemma PlanUpdatesDistinct(newInfo: JsValue, random: Numeral)
    requires WellFormedPayload(newInfo)
    ensures var u := PlanInfo(newInfo, random).value.updates;
            forall a, b :: 0 <= a < b < |u| ==> u[a].0 != u[b].0
  {
    PlanIsGroupOfPairs(newInfo, random);
    PairsFacts(newInfo, random, ImageKey);
    GroupDistinct(PairsOf(newInfo, random));
  }

  /** Applying the plan of a well-formed payload to a stored info map: a
      caller's key whose value clears is gone, any other of the caller's
      keys holds `String(value)`, and keys the caller did not send keep
      their stored value. */
  lemma InfoUpdateEffect(info: map<string, string>, newInfo: JsValue, random: Numeral, k: string)
    requires WellFormedPayload(newInfo) && !IsReserved(k)
    ensures var after := ApplyPlan(info, PlanInfo(newInfo, random).value);
            var props := PayloadProps(newInfo);
            && (k in Keys(props) && ClearsField(Get(props, k)) ==> k !in after)
            && (k in Keys(props) && !ClearsField(Get(props, k)) ==>
                  k in after && after[k] == ToJsString(Get(props, k)))
            && (k !in Keys(props) ==> (k in after <==> k in info) && (k in info ==> after[k] == info[k]))
  {
    var plan := PlanInfo(newInfo, random).value;
    DeleteIffClears(newInfo, random, k);
    EveryKeyInExactlyOneGroup(newInfo, random, k);
    ApplyPlanUntouched(info, plan, k);
    if k in UpdateKeys(plan.updates) {
      var j :| 0 <= j < |plan.updates| && UpdateKeys(plan.updates)[j] == k;
      PlanUpdatesDistinct(newInfo, random);
      ApplyPlanUpdated(info, plan, j);
      UpdateValues(newInfo, random, j);
    }
  }

  // ---------------------------------------------------------------------
  // The other user writes and the multi-id lookup
  // ---------------------------------------------------------------------

  /** The columns of the row `createUser` writes. */
  lemma CreateUserRow(user: NewUser, ttl: JsValue, md5: string -> string)
    ensures var row := CreateUser(user, ttl, md5).row;
            && Get(row, "username") == user.username
            && Get(row, "hash_password") == user.hashPassword
            && Get(row, "info") == Obj([Prop("fullname", Str("")),
                                        Prop("birthday", Str("")),
                                        Prop(ImageKey, Str(GravatarImage(md5(ToJsString(user.email)))))])
            && Get(row, "email") == user.email
            && Get(row, "type") == user.userType
            && Get(row, "id") == user.userId
  {
    var row := CreateUser(user, ttl, md5).row;
    assert Get(row, "hash_password") == Get(row[1..], "hash_password");
    assert Get(row, "info") == Get(row[1..], "info") == Get(row[2..], "info");
    assert Get(row, "email") == Get(row[1..], "email") == Get(row[2..], "email") == Get(row[3..], "email");
    assert Get(row, "type") == Get(row[1..], "type") == Get(row[2..], "type") == Get(row[3..], "type")
        == Get(row[4..], "type");
    assert Get(row, "id") == Get(row[1..], "id") == Get(row[2..], "id") == Get(row[3..], "id")
        == Get(row[4..], "id") == Get(row[5..], "id");
  }

  /** The avatar `createUser` stores is the one `updateEmail` writes for the
      same email: clients never choose it. */
  lemma CreateAndUpdateEmailAgree(user: NewUser, ttl: JsValue, md5: string -> string,
                                  userId: JsValue, ttl2: JsValue)
    ensures var w := CreateUser(user, ttl, md5);
            var s := UpdateEmail(userId, user.email, ttl2, md5);
            && Get(w.row, "info").Obj?
            && Get(Get(w.row, "info").props, ImageKey) == s.params[2]
            && s.params[1] == Str(ImageKey)
  {
    CreateUserRow(user, ttl, md5);
    var info := Get(CreateUser(user, ttl, md5).row, "info").props;
    assert Get(info, ImageKey) == Get(info[1..], ImageKey) == Get(info[2..], ImageKey);
  }

  lemma {:induction false} OccurrencesSplit(a: string, b: string, c: char)
    requires c !in a
    ensures Occurrences(a + [c] + b, c) == 1 + Occurrences(b, c)
  {
    OccurrencesAppend(a + [c], b, c);
    OccurrencesAppend(a, [c], c);
    OccurrencesAbsent(a, c);
  }

  // The email statement's placeholders, one `?` at a time.

  lemma EmailIdPlaceholder()
    ensures Occurrences(" WHERE id = ?", '?') == 1
  {
    assert " WHERE id = ?" == " WHERE id = " + ['?'] + "";
    OccurrencesSplit(" WHERE id = ", "", '?');
  }

  lemma EmailAvatarPlaceholder()
    ensures Occurrences("] = ? WHERE id = ?", '?') == 2
  {
    assert "] = ? WHERE id = ?" == "] = " + ['?'] + " WHERE id = ?";
    OccurrencesSplit("] = ", " WHERE id = ?", '?');
    EmailIdPlaceholder();
  }

  lemma EmailKeyPlaceholder()
    ensures Occurrences(", info[?] = ? WHERE id = ?", '?') == 3
  {
    assert ", info[?] = ? WHERE id = ?" == ", info[" + ['?'] + "] = ? WHERE id = ?";
    OccurrencesSplit(", info[", "] = ? WHERE id = ?", '?');
    EmailAvatarPlaceholder();
  }

  lemma EmailTailAfterSet()
    ensures " SET email = ?, info[?] = ? WHERE id = ?" == " SET email = " + "?, info[?] = ? WHERE id = ?"
  {
  }

  lemma EmailTailAfterEmail()
    ensures "?, info[?] = ? WHERE id = ?" == ['?'] + ", info[?] = ? WHERE id = ?"
  {
  }

  lemma EmailTailSplit()
    ensures " SET email = ?, info[?] = ? WHERE id = ?" == " SET email = " + ['?'] + ", info[?] = ? WHERE id = ?"
  {
    EmailTailAfterSet();
    EmailTailAfterEmail();
  }

  lemma EmailTailPlaceholders()
    ensures Occurrences(" SET email = ?, info[?] = ? WHERE id = ?", '?') == 4
  {
    EmailTailSplit();
    OccurrencesSplit(" SET email = ", ", info[?] = ? WHERE id = ?", '?');
    EmailKeyPlaceholder();
  }

  lemma EmailTailCount(q: string, head: string)
    requires '?' !in head && q == head + " SET email = ?, info[?] = ? WHERE id = ?"
    ensures Placeholders(q) == 4
  {
    EmailTailPlaceholders();
    OccurrencesAbsent(head, '?');
    OccurrencesAppend(head, " SET email = ?, info[?] = ? WHERE id = ?", '?');
  }

  lemma EmailPlaceholders(userId: JsValue, newEmail: JsValue, ttl: JsValue, md5: string -> string)
    ensures Placeholders(UpdateEmail(userId, newEmail, ttl, md5).query) == 4
  {
    var head := "UPDATE user " + TtlClause(ttl);
    assert '?' !in head;
    EmailTailCount(UpdateEmail(userId, newEmail, ttl, md5).query, head);
  }

  lemma EmailAffixes(userId: JsValue, newEmail: JsValue, ttl: JsValue, md5: string -> string)
    ensures var q := UpdateEmail(userId, newEmail, ttl, md5).query;
            && EndsWith(q, " WHERE id = ?")
            && (StartsWith(q, "UPDATE user USING TTL ") <==> ttl.Num?)
  {
    var q := UpdateEmail(userId, newEmail, ttl, md5).query;
    var rest := " SET email = ?, info[?] = ? WHERE id = ?";
    assert q == "UPDATE user " + TtlClause(ttl) + rest;
    assert q == ("UPDATE user " + TtlClause(ttl) + " SET email = ?, info[?] = ?") + " WHERE id = ?";
    assert rest[0] == ' ';
    TtlHead(ttl, rest);
  }

  /** `updateEmail`: four placeholders for its four parameters (email, the
      key `image`, the avatar, the id) and no existence condition. */
  lemma UpdateEmailShape(userId: JsValue, newEmail: JsValue, ttl: JsValue, md5: string -> string)
    ensures var s := UpdateEmail(userId, newEmail, ttl, md5);
            && Placeholders(s.query) == |s.params| == 4
            && s.params[0] == newEmail && s.params[3] == userId
            && EndsWith(s.query, " WHERE id = ?")
            && (StartsWith(s.query, "UPDATE user USING TTL ") <==> ttl.Num?)
  {
    EmailPlaceholders(userId, newEmail, ttl, md5);
    EmailAffixes(userId, newEmail, ttl, md5);
  }

  /** Creating a user is insert-if-absent with the default profile;
      password and name changes are update-if-present; all forward the
      ttl. */
  lemma UserWriteConditions(user: NewUser, userId: JsValue, v: JsValue, ttl: JsValue, md5: string -> string)
    ensures var w := CreateUser(user, ttl, md5);
            && w.Insert? && w.options == WriteOptions(IfNotExists, ttl)
            && Get(w.row, "id") == user.userId
            && Get(w.row, "hash_password") == user.hashPassword
            && Get(w.row, "info").Obj?
            && Get(Get(w.row, "info").props, "fullname") == Str("")
            && Get(Get(w.row, "info").props, "birthday") == Str("")
    ensures var w := UpdateUserPassword(userId, v, ttl);
            && w.Update? && w.options == WriteOptions(IfExists, ttl)
            && Get(w.row, "id") == userId && Get(w.row, "hash_password") == v
    ensures var w := UpdateUserName(userId, v, ttl);
            && w.Update? && w.options == WriteOptions(IfExists, ttl)
            && Get(w.row, "id") == userId && Get(w.row, "username") == v
  {
    CreateUserRow(user, ttl, md5);
    var info := Get(CreateUser(user, ttl, md5).row, "info").props;
    assert Get(info, "birthday") == Get(info[1..], "birthday");
    var p := UpdateUserPassword(userId, v, ttl).row;
    assert Get(p, "hash_password") == Get(p[1..], "hash_password");
    var n := UpdateUserName(userId, v, ttl).row;
    assert Get(n, "username") == Get(n[1..], "username");
  }

  /** A single id is wrapped into a one-element list, so the lookup finds
      exactly the document with that id. */
  lemma SingleIdLookup(userId: JsValue, includes: JsValue, excludes: JsValue, doc: Document)
    requires !userId.Arr?
    ensures var r := GetMultipleUsersById(userId, includes, excludes);
            && r.query == Ids([userId])
            && (Satisfies(doc, r.query) <==> userId == Str(doc.id))
  {
  }
}
