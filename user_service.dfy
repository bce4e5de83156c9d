/**
 * The user service: the request shapes for creating a user, changing the
 * email, password and user name, the multi-id lookup, and the profile-info
 * update planner, which turns a sparse `info` payload into a batch of one
 * map-assigning and one map-deleting statement.
 */
module UserService {
  import opened JsValues
  import opened Requests

  const GravatarUrl := "https://gravatar.com/avatar"
  const ImageKey := "image"
  const UpdateMarker := "_update_"
  const DeleteMarker := "_delete_"
  const TypeErrorOnNull := "Cannot convert undefined or null to object"

  /** The avatar address derived from an email's hex MD5 digest. */
  function GravatarImage(md5Hex: string): string
  {
    GravatarUrl + "/" + md5Hex
  }

  // ---------------------------------------------------------------------
  // Normalising the payload
  // ---------------------------------------------------------------------

  /** An array seen as an object: its index properties "0", "1", ... */
  function IndexProps(items: seq<JsValue>): (props: seq<Prop>)
    ensures |props| == |items|
    ensures forall i :: 0 <= i < |items| ==> props[i].value == items[i]
  {
    seq(|items|, i requires 0 <= i < |items| => Prop(NatToString(i), items[i]))
  }

  /** The in-place edits before the pipeline: `delete newInfo.image`, then
      `_update_` set to the random number and `_delete_` set to undefined. */
  function Normalise(props: seq<Prop>, random: Numeral): seq<Prop>
  {
    Put(Put(Remove(props, ImageKey), UpdateMarker, Num(random)), DeleteMarker, Undefined)
  }

  /** The object the pipeline starts from. A value whose `typeof` is not
      "object" is replaced by `{}`; `null` has `typeof` "object" and makes
      `delete newInfo.image` throw. */
  function NormaliseInfo(newInfo: JsValue, random: Numeral): (r: Completion<seq<Prop>>)
    ensures r.Throw? <==> newInfo.Null?
  {
    match newInfo
    case Null => Throw(TypeErrorOnNull)
    case Obj(props) => Normal(Normalise(props, random))
    case Arr(items) => Normal(Normalise(IndexProps(items), random))
    case _ => Normal(Normalise([], random))
  }

  // ---------------------------------------------------------------------
  // mapValues, toPairs, groupBy
  // ---------------------------------------------------------------------

  /** The `switch` cases that keep a value as it is and later route its key
      to the delete group: strictly equal to undefined, '' or null. */
  predicate IsDeleteCase(v: JsValue)
  {
    StrictEquals(v, Undefined) || StrictEquals(v, Str("")) || StrictEquals(v, Null)
  }

  /** The `mapValues` callback. */
  function StringifyValue(v: JsValue): (r: JsValue)
    ensures r.Undefined? || r.Null? || r.Str?
  {
    if IsDeleteCase(v) then v else Str(ToJsString(v))
  }

  function MapValues(props: seq<Prop>): (r: seq<Prop>)
    ensures |r| == |props|
    ensures forall i :: 0 <= i < |props| ==> r[i].key == props[i].key
  {
    if props == [] then []
    else [Prop(props[0].key, StringifyValue(props[0].value))] + MapValues(props[1..])
  }

  /** The two groups, each in the order of the pairs. */
  datatype Plan = Plan(updates: seq<(string, string)>, deletes: seq<string>)

  function UpdateKeys(updates: seq<(string, string)>): (ks: seq<string>)
    ensures |ks| == |updates|
    ensures forall i :: 0 <= i < |updates| ==> ks[i] == updates[i].0
  {
    if updates == [] then [] else [updates[0].0] + UpdateKeys(updates[1..])
  }

  /** `groupBy` over the pairs: a delete-case value sends its key to the
      delete group, any other pair goes to the update group with its string. */
  function GroupPairs(pairs: seq<Prop>): (plan: Plan)
    ensures |plan.updates| + |plan.deletes| == |pairs|
  {
    if pairs == [] then Plan([], [])
    else
      var rest := GroupPairs(pairs[1..]);
      if IsDeleteCase(pairs[0].value) then Plan(rest.updates, [pairs[0].key] + rest.deletes)
      else Plan([(pairs[0].key, ToJsString(pairs[0].value))] + rest.updates, rest.deletes)
  }

  /** The plan `updateUserInfo` computes for a payload. */
  function PlanInfo(newInfo: JsValue, random: Numeral): Completion<Plan>
  {
    match NormaliseInfo(newInfo, random)
    case Throw(m) => Throw(m)
    case Normal(props) => Normal(GroupPairs(MapValues(props)))
  }

  // ---------------------------------------------------------------------
  // Rendering the batch
  // ---------------------------------------------------------------------

  function Repeat(part: string, n: nat): (r: seq<string>)
    ensures |r| == n
  {
    if n == 0 then [] else [part] + Repeat(part, n - 1)
  }

  /** `Array.prototype.join`. */
  function JoinWith(parts: seq<string>, sep: string): string
  {
    if parts == [] then ""
    else if |parts| == 1 then parts[0]
    else parts[0] + sep + JoinWith(parts[1..], sep)
  }

  /** `_.flatten` of the update pairs. */
  function FlattenPairs(updates: seq<(string, string)>): (r: seq<JsValue>)
    ensures |r| == 2 * |updates|
  {
    if updates == [] then [] else [Str(updates[0].0), Str(updates[0].1)] + FlattenPairs(updates[1..])
  }

  function StrParams(keys: seq<string>): (r: seq<JsValue>)
  {
    seq(|keys|, i requires 0 <= i < |keys| => Str(keys[i]))
  }

  function UpdateStatement(userId: JsValue, updates: seq<(string, string)>, ttl: JsValue): Statement
  {
    Statement(
      "UPDATE user " + TtlClause(ttl) + " SET " + JoinWith(Repeat("info[?] = ?", |updates|), ", ")
        + " WHERE id = ? IF EXISTS",
      FlattenPairs(updates) + [userId])
  }

  function DeleteStatement(userId: JsValue, deletes: seq<string>): Statement
  {
    Statement(
      "DELETE " + JoinWith(Repeat("info[?]", |deletes|), ", ") + " FROM user WHERE id = ? IF EXISTS",
      StrParams(deletes) + [userId])
  }

  /** The batch handed to the table store: the update, then the delete. */
  function RenderBatch(userId: JsValue, plan: Plan, ttl: JsValue): seq<Statement>
  {
    [UpdateStatement(userId, plan.updates, ttl), DeleteStatement(userId, plan.deletes)]
  }

  /** `updateUserInfo(userId, newInfo, ttl)`, with `Math.random()` given as
      the numeral `random`. */
  function UpdateUserInfo(userId: JsValue, newInfo: JsValue, ttl: JsValue, random: Numeral)
    : Completion<seq<Statement>>
  {
    match PlanInfo(newInfo, random)
    case Throw(m) => Throw(m)
    case Normal(plan) => Normal(RenderBatch(userId, plan, ttl))
  }

  // ---------------------------------------------------------------------
  // The caller's object, mutated in place
  // ---------------------------------------------------------------------

  /** A plain object the caller passes by reference. */
  class InfoObject {
    var props: seq<Prop>

    constructor (props: seq<Prop>)
      ensures this.props == props
    {
      this.props := props;
    }

    method DeleteProperty(k: string)
      modifies this
      ensures props == Remove(old(props), k)
    {
      props := Remove(props, k);
    }

    method SetProperty(k: string, v: JsValue)
      modifies this
      ensures props == Put(old(props), k, v)
    {
      props := Put(props, k, v);
    }
  }

  /** The `newInfo` argument. An object or an array is shared with the
      caller: `obj` holds its own enumerable properties (for an array, its
      index properties `IndexProps(items)`), which the edits change in
      place. Any other value is passed by value. */
  datatype InfoArgument = ByReference(obj: InfoObject) | ByValue(v: JsValue)

  /** `updateUserInfo` as the source runs it: an object or array argument is
      edited in place before the pure pipeline reads it. */
  method UpdateUserInfoCall(userId: JsValue, newInfo: InfoArgument, ttl: JsValue, random: Numeral)
    returns (r: Completion<seq<Statement>>)
    requires newInfo.ByValue? ==> !newInfo.v.Obj? && !newInfo.v.Arr?
    modifies if newInfo.ByReference? then {newInfo.obj} else {}
    ensures newInfo.ByReference? ==> newInfo.obj.props == Normalise(old(newInfo.obj.props), random)
    ensures r == UpdateUserInfo(userId, if newInfo.ByReference? then Obj(old(newInfo.obj.props)) else newInfo.v,
                                ttl, random)
  {
    match newInfo {
      case ByValue(v) =>
        r := UpdateUserInfo(userId, v, ttl, random);
      case ByReference(obj) =>
        ghost var before := obj.props;
        obj.DeleteProperty(ImageKey);
        obj.SetProperty(UpdateMarker, Num(random));
        obj.SetProperty(DeleteMarker, Undefined);
        r := Normal(RenderBatch(userId, GroupPairs(MapValues(obj.props)), ttl));
    }
  }

  // ---------------------------------------------------------------------
  // What applying a plan does to a stored info map
  // ---------------------------------------------------------------------

  function UpdatesMap(updates: seq<(string, string)>): (m: map<string, string>)
    ensures m.Keys == set i | 0 <= i < |updates| :: updates[i].0
  {
    if updates == [] then map[]
    else UpdatesMap(updates[..|updates| - 1])[updates[|updates| - 1].0 := updates[|updates| - 1].1]
  }

  /** The info map after the batch applies: the update statement assigns its
      pairs, then the delete statement removes its keys. */
  function ApplyPlan(info: map<string, string>, plan: Plan): map<string, string>
  {
    (info + UpdatesMap(plan.updates)) - (set k | k in plan.deletes)
  }

  // ---------------------------------------------------------------------
  // The other request builders
  // ---------------------------------------------------------------------

  datatype NewUser = NewUser(userId: JsValue, email: JsValue, hashPassword: JsValue,
                             username: JsValue, userType: JsValue)

  /** `createUser(user, ttl)`; `md5` is the hex MD5 digest function. */
  function CreateUser(user: NewUser, ttl: JsValue, md5: string -> string): MapperWrite
  {
    Insert("user",
           [Prop("username", user.username),
            Prop("hash_password", user.hashPassword),
            Prop("info", Obj([Prop("fullname", Str("")),
                              Prop("birthday", Str("")),
                              Prop(ImageKey, Str(GravatarImage(md5(ToJsString(user.email)))))])),
            Prop("email", user.email),
            Prop("type", user.userType),
            Prop("id", user.userId)],
           WriteOptions(IfNotExists, ttl))
  }

  /** `updateEmail(userId, newEmail, ttl)`. */
  function UpdateEmail(userId: JsValue, newEmail: JsValue, ttl: JsValue, md5: string -> string): Statement
  {
    Statement("UPDATE user " + TtlClause(ttl) + " SET email = ?, info[?] = ? WHERE id = ?",
              [newEmail, Str(ImageKey), Str(GravatarImage(md5(ToJsString(newEmail)))), userId])
  }

  /** `updateUserPassword(userId, newPassword, ttl)`. */
  function UpdateUserPassword(userId: JsValue, newPassword: JsValue, ttl: JsValue): MapperWrite
  {
    Update("user", [Prop("id", userId), Prop("hash_password", newPassword)], WriteOptions(IfExists, ttl))
  }

  /** `updateUserName(userId, newUserName, ttl)`. */
  function UpdateUserName(userId: JsValue, newUserName: JsValue, ttl: JsValue): MapperWrite
  {
    Update("user", [Prop("id", userId), Prop("username", newUserName)], WriteOptions(IfExists, ttl))
  }

  /** `getMultipleUsersById(userId, includes, excludes)`. */
  function GetMultipleUsersById(userId: JsValue, includes: JsValue, excludes: JsValue): SearchRequest
  {
    var ids := if userId.Arr? then userId.items else [userId];
    SearchRequest("lms.user", "user", None, None, includes, excludes, Ids(ids))
  }
}
