/**
 * What the profile-info update planner guarantees: every key of the
 * normalised payload lands in exactly one group, in order; a key is deleted
 * exactly when its value stringifies to nothing; `image` is never planned;
 * the two synthetic keys keep both groups non-empty; and the rendered batch
 * has one parameter per placeholder.
 */
module UserInfoProofs {
  import opened JsValues
  import opened Requests
  import opened UserService

  /** The own properties `updateUserInfo` reads from a payload. */
  function PayloadProps(newInfo: JsValue): seq<Prop>
  {
    match newInfo
    case Obj(props) => props
    case Arr(items) => IndexProps(items)
    case _ => []
  }

  /** A payload a JSON body or a JavaScript caller can pass: not `null`, and
      an object never repeats a property name. */
  predicate WellFormedPayload(newInfo: JsValue)
  {
    !newInfo.Null? && (newInfo.Obj? ==> DistinctKeys(newInfo.props))
  }

  /** The values whose key the planner deletes: undefined, null, and every
      value whose `String()` form is empty ('' itself, [], [null], ...). */
  predicate ClearsField(v: JsValue)
  {
    v.Undefined? || v.Null? || ToJsString(v) == ""
  }

  predicate IsReserved(k: string)
  {
    k == ImageKey || k == UpdateMarker || k == DeleteMarker
  }

  // ---------------------------------------------------------------------
  // Stringification and routing
  // ---------------------------------------------------------------------

  /** Routing happens after stringification: a key is deleted iff its value
      was undefined or null or its string form is empty; otherwise the update
      carries that non-empty string. */
  lemma StringifyRouting(v: JsValue)
    ensures IsDeleteCase(StringifyValue(v)) <==> ClearsField(v)
    ensures !ClearsField(v) ==> StringifyValue(v) == Str(ToJsString(v)) && ToJsString(v) != ""
  {
  }

  /** Strict equality in the `switch`: 0 and false are updates, an empty
      array is a delete. */
  lemma FalsyValuesRouting()
    ensures !ClearsField(Num("0")) && ToJsString(Num("0")) == "0"
    ensures !ClearsField(Bool(false)) && ToJsString(Bool(false)) == "false"
    ensures ClearsField(Arr([])) && ClearsField(Arr([Null])) && ClearsField(Str(""))
  {
    assert ToJsString(Arr([Null])) == "";
  }

  lemma {:induction false} MapValuesFacts(props: seq<Prop>, k: string)
    ensures Keys(MapValues(props)) == Keys(props)
    ensures Get(MapValues(props), k) == StringifyValue(Get(props, k))
    ensures DistinctKeys(props) ==> DistinctKeys(MapValues(props))
  {
    if props != [] {
      MapValuesFacts(props[1..], k);
    }
  }

  lemma {:induction false} TailDistinct(props: seq<Prop>)
    requires props != [] && DistinctKeys(props)
    ensures DistinctKeys(props[1..]) && props[0].key !in Keys(props[1..])
  {
    forall i, j | 0 <= i < j < |props[1..]| ensures props[1..][i].key != props[1..][j].key {
      assert props[1..][i] == props[1 + i] && props[1..][j] == props[1 + j];
    }
    forall i | 0 <= i < |props[1..]| ensures Keys(props[1..])[i] != props[0].key {
      assert props[1..][i] == props[1 + i];
    }
  }

  /** A key of the pairs lands in some group, and a grouped key is a key of
      the pairs. */
  lemma {:induction false} GroupKeys(pairs: seq<Prop>, k: string)
    ensures var g := GroupPairs(pairs);
            (k in UpdateKeys(g.updates) || k in g.deletes) <==> k in Keys(pairs)
  {
    if pairs != [] {
      GroupKeys(pairs[1..], k);
      assert Keys(pairs) == [pairs[0].key] + Keys(pairs[1..]);
      var rest := GroupPairs(pairs[1..]);
      if !IsDeleteCase(pairs[0].value) {
        assert UpdateKeys(GroupPairs(pairs).updates) == [pairs[0].key] + UpdateKeys(rest.updates);
      }
    }
  }

  /** With distinct keys, a key is an update iff its value is not a delete
      case, and a delete iff it is; the update carries the value's string. */
  lemma {:induction false} GroupMembership(pairs: seq<Prop>, k: string)
    requires DistinctKeys(pairs)
    ensures var g := GroupPairs(pairs);
            && (k in UpdateKeys(g.updates) <==> k in Keys(pairs) && !IsDeleteCase(Get(pairs, k)))
            && (k in g.deletes <==> k in Keys(pairs) && IsDeleteCase(Get(pairs, k)))
  {
    if pairs != [] {
      TailDistinct(pairs);
      GroupMembership(pairs[1..], k);
      GroupKeys(pairs[1..], k);
      assert Keys(pairs) == [pairs[0].key] + Keys(pairs[1..]);
      var rest := GroupPairs(pairs[1..]);
      if !IsDeleteCase(pairs[0].value) {
        assert UpdateKeys(GroupPairs(pairs).updates) == [pairs[0].key] + UpdateKeys(rest.updates);
      }
    }
  }

  /** Each update pair comes from a pair of the input with the same key,
      a non-delete value, and that value's string. */
  lemma {:induction false} GroupUpdateOrigin(pairs: seq<Prop>, j: nat) returns (i: nat)
    requires j < |GroupPairs(pairs).updates|
    ensures i < |pairs|
    ensures GroupPairs(pairs).updates[j] == (pairs[i].key, ToJsString(pairs[i].value))
    ensures !IsDeleteCase(pairs[i].value)
  {
    var rest := GroupPairs(pairs[1..]);
    if IsDeleteCase(pairs[0].value) {
      i := GroupUpdateOrigin(pairs[1..], j);
      i := i + 1;
    } else if j == 0 {
      i := 0;
    } else {
      i := GroupUpdateOrigin(pairs[1..], j - 1);
      i := i + 1;
    }
  }

  /** How many of the first `i` pairs go to the delete group (`toDelete`)
      or to the update group. */
  function CountRouted(pairs: seq<Prop>, i: nat, toDelete: bool): nat
    requires i <= |pairs|
  {
    if i == 0 then 0
    else (if IsDeleteCase(pairs[0].value) == toDelete then 1 else 0) + CountRouted(pairs[1..], i - 1, toDelete)
  }

  /** Groups keep the pairs' order: the `i`-th pair sits in its group right
      after the pairs before it that went to the same group. */
  lemma {:induction false} GroupOrder(pairs: seq<Prop>, i: nat)
    requires i < |pairs|
    ensures var g := GroupPairs(pairs);
            var d := IsDeleteCase(pairs[i].value);
            var r := CountRouted(pairs, i, d);
            if d then r < |g.deletes| && g.deletes[r] == pairs[i].key
            else r < |g.updates| && g.updates[r] == (pairs[i].key, ToJsString(pairs[i].value))
  {
    if i > 0 {
      GroupOrder(pairs[1..], i - 1);
      assert pairs[1..][i - 1] == pairs[i];
    }
  }

  /** Distinct keys in, distinct keys in each group out. */
  lemma {:induction false} GroupDistinct(pairs: seq<Prop>)
    requires DistinctKeys(pairs)
    ensures var g := GroupPairs(pairs);
            && (forall a, b :: 0 <= a < b < |g.updates| ==> g.updates[a].0 != g.updates[b].0)
            && (forall a, b :: 0 <= a < b < |g.deletes| ==> g.deletes[a] != g.deletes[b])
  {
    if pairs != [] {
      TailDistinct(pairs);
      GroupDistinct(pairs[1..]);
      GroupKeys(pairs[1..], pairs[0].key);
      var g := GroupPairs(pairs);
      var rest := GroupPairs(pairs[1..]);
      if IsDeleteCase(pairs[0].value) {
        forall a, b | 0 <= a < b < |g.deletes| ensures g.deletes[a] != g.deletes[b] {
          if a == 0 {
            assert g.deletes[b] == rest.deletes[b - 1];
          } else {
            assert g.deletes[a] == rest.deletes[a - 1] && g.deletes[b] == rest.deletes[b - 1];
          }
        }
      } else {
        forall a, b | 0 <= a < b < |g.updates| ensures g.updates[a].0 != g.updates[b].0 {
          if a == 0 {
            assert g.updates[b] == rest.updates[b - 1];
            assert UpdateKeys(rest.updates)[b - 1] == rest.updates[b - 1].0;
          } else {
            assert g.updates[a] == rest.updates[a - 1] && g.updates[b] == rest.updates[b - 1];
          }
        }
      }
    }
  }

  // ---------------------------------------------------------------------
  // Normalisation
  // ---------------------------------------------------------------------

  lemma IndexPropsDistinct(items: seq<JsValue>)
    ensures DistinctKeys(IndexProps(items))
  {
    var p := IndexProps(items);
    forall i, j | 0 <= i < j < |p| ensures p[i].key != p[j].key {
      if p[i].key == p[j].key {
        NatToStringInjective(i, j);
      }
    }
  }

  lemma WellFormedProps(newInfo: JsValue)
    requires WellFormedPayload(newInfo)
    ensures DistinctKeys(PayloadProps(newInfo))
  {
    if newInfo.Arr? {
      IndexPropsDistinct(newInfo.items);
    }
  }

  /** The normalised object: `image` gone, the two markers present with
      their values, every other property as the caller gave it. */
  lemma {:induction false} NormaliseFacts(props: seq<Prop>, random: Numeral, k: string)
    ensures var n := Normalise(props, random);
            && (k in Keys(n) <==> (k in Keys(props) && k != ImageKey) || k == UpdateMarker || k == DeleteMarker)
            && Get(n, k) == (if k == DeleteMarker then Undefined
                             else if k == UpdateMarker then Num(random)
                             else if k == ImageKey then Undefined
                             else Get(props, k))
            && (DistinctKeys(props) ==> DistinctKeys(n))
  {
    var r := Remove(props, ImageKey);
    var u := Put(r, UpdateMarker, Num(random));
    KeysRemove(props, ImageKey);
    GetRemove(props, ImageKey, k);
    KeysPut(r, UpdateMarker, Num(random));
    GetPut(r, UpdateMarker, Num(random), k);
    KeysPut(u, DeleteMarker, Undefined);
    GetPut(u, DeleteMarker, Undefined, k);
    if DistinctKeys(props) {
      DistinctPut(r, UpdateMarker, Num(random));
      DistinctPut(u, DeleteMarker, Undefined);
    }
  }

  /** The normalised, stringified pairs of a payload. */
  function PairsOf(newInfo: JsValue, random: Numeral): seq<Prop>
  {
    MapValues(Normalise(PayloadProps(newInfo), random))
  }

  lemma PlanIsGroupOfPairs(newInfo: JsValue, random: Numeral)
    requires !newInfo.Null?
    ensures PlanInfo(newInfo, random) == Normal(GroupPairs(PairsOf(newInfo, random)))
  {
  }

  /** Key by key, what the stringified pairs of a well-formed payload hold. */
  lemma PairsFacts(newInfo: JsValue, random: Numeral, k: string)
    requires WellFormedPayload(newInfo)
    ensures var pairs := PairsOf(newInfo, random);
            var props := PayloadProps(newInfo);
            && DistinctKeys(pairs)
            && (k in Keys(pairs) <==> (k in Keys(props) && k != ImageKey) || k == UpdateMarker || k == DeleteMarker)
            && Get(pairs, k) == StringifyValue(if k == DeleteMarker then Undefined
                                               else if k == UpdateMarker then Num(random)
                                               else if k == ImageKey then Undefined
                                               else Get(props, k))
  {
    var props := PayloadProps(newInfo);
    WellFormedProps(newInfo);
    NormaliseFacts(props, random, k);
    MapValuesFacts(Normalise(props, random), k);
  }

  // ---------------------------------------------------------------------
  // The plan
  // ---------------------------------------------------------------------

  /** `null` throws before anything is planned; any other payload is
      planned, with every object's `String()` taken as the default
      "[object Object]" (an own `toString` key is not modelled). */
  lemma PlanDefinedUnlessNull(newInfo: JsValue, random: Numeral)
    ensures PlanInfo(newInfo, random).Throw? <==> newInfo.Null?
    ensures newInfo.Null? ==> PlanInfo(newInfo, random) == Throw(TypeErrorOnNull)
  {
  }

  /** Every key of the normalised payload lands in exactly one group. */
  lemma EveryKeyInExactlyOneGroup(newInfo: JsValue, random: Numeral, k: string)
    requires WellFormedPayload(newInfo)
    ensures PlanInfo(newInfo, random).Normal?
    ensures var plan := PlanInfo(newInfo, random).value;
            && ((k in UpdateKeys(plan.updates) || k in plan.deletes) <==> k in Keys(Normalise(PayloadProps(newInfo), random)))
            && !(k in UpdateKeys(plan.updates) && k in plan.deletes)
  {
    var pairs := PairsOf(newInfo, random);
    PairsFacts(newInfo, random, k);
    NormaliseFacts(PayloadProps(newInfo), random, k);
    GroupMembership(pairs, k);
  }

  /** A caller's key is deleted iff its value is undefined, null or
      stringifies to the empty string; otherwise it is updated. */
  lemma DeleteIffClears(newInfo: JsValue, random: Numeral, k: string)
    requires WellFormedPayload(newInfo) && !IsReserved(k)
    ensures var plan := PlanInfo(newInfo, random).value;
            var props := PayloadProps(newInfo);
            && (k in plan.deletes <==> k in Keys(props) && ClearsField(Get(props, k)))
            && (k in UpdateKeys(plan.updates) <==> k in Keys(props) && !ClearsField(Get(props, k)))
  {
    var pairs := PairsOf(newInfo, random);
    PairsFacts(newInfo, random, k);
    GroupMembership(pairs, k);
    StringifyRouting(Get(PayloadProps(newInfo), k));
  }

  /** Every update value is a non-empty string: the random marker for
      `_update_`, `String(original)` for a caller's key. */
  lemma UpdateValues(newInfo: JsValue, random: Numeral, j: nat)
    requires WellFormedPayload(newInfo)
    requires j < |PlanInfo(newInfo, random).value.updates|
    ensures var u := PlanInfo(newInfo, random).value.updates[j];
            && u.1 != ""
            && (u.0 == UpdateMarker ==> u.1 == random)
            && (u.0 != UpdateMarker ==> u.1 == ToJsString(Get(PayloadProps(newInfo), u.0)))
  {
    var pairs := PairsOf(newInfo, random);
    var i := GroupUpdateOrigin(pairs, j);
    var k := pairs[i].key;
    PairsFacts(newInfo, random, k);
    GetAt(pairs, i);
    var props := PayloadProps(newInfo);
    StringifyRouting(if k == DeleteMarker then Undefined
                     else if k == UpdateMarker then Num(random)
                     else if k == ImageKey then Undefined
                     else Get(props, k));
  }

  /** Clients can neither set nor delete `image`. */
  lemma ImageNeverPlanned(newInfo: JsValue, random: Numeral)
    requires !newInfo.Null?
    ensures var plan := PlanInfo(newInfo, random).value;
            ImageKey !in UpdateKeys(plan.updates) && ImageKey !in plan.deletes
  {
    var props := PayloadProps(newInfo);
    var pairs := PairsOf(newInfo, random);
    NormaliseFacts(props, random, ImageKey);
    MapValuesFacts(Normalise(props, random), ImageKey);
    GroupKeys(pairs, ImageKey);
  }

  /** `_update_` is always updated and `_delete_` always deleted, so neither
      group is ever empty. */
  lemma MarkersKeepGroupsNonEmpty(newInfo: JsValue, random: Numeral)
    requires WellFormedPayload(newInfo)
    ensures var plan := PlanInfo(newInfo, random).value;
            && (UpdateMarker, random) in plan.updates
            && DeleteMarker in plan.deletes
            && |plan.updates| > 0 && |plan.deletes| > 0
  {
    var pairs := PairsOf(newInfo, random);
    var plan := GroupPairs(pairs);
    PairsFacts(newInfo, random, UpdateMarker);
    GroupMembership(pairs, UpdateMarker);
    var j :| 0 <= j < |plan.updates| && UpdateKeys(plan.updates)[j] == UpdateMarker;
    UpdateValues(newInfo, random, j);
    PairsFacts(newInfo, random, DeleteMarker);
    GroupMembership(pairs, DeleteMarker);
  }

  /** A payload that is not an object plans only the two markers. */
  lemma NonObjectPlansMarkersOnly(newInfo: JsValue, random: Numeral)
    requires !newInfo.Null? && !newInfo.Obj? && !newInfo.Arr?
    ensures PlanInfo(newInfo, random) == Normal(Plan([(UpdateMarker, random)], [DeleteMarker]))
  {
    var u := Prop(UpdateMarker, Num(random));
    var d := Prop(DeleteMarker, Undefined);
    assert Remove([], ImageKey) == [];
    assert Put([], UpdateMarker, Num(random)) == [u];
    assert Put([u], DeleteMarker, Undefined) == [u] + Put([], DeleteMarker, Undefined) == [u, d];
    var pairs := MapValues([u, d]);
    assert pairs == [Prop(UpdateMarker, Str(random)), d] by {
      assert MapValues([u, d]) == [Prop(UpdateMarker, StringifyValue(Num(random)))] + MapValues([d]);
      assert MapValues([d]) == [d] + MapValues([]);
    }
    assert GroupPairs([d]) == Plan([], [DeleteMarker]) by {
      assert GroupPairs([d][1..]) == Plan([], []);
    }
    assert GroupPairs(pairs) == Plan([(UpdateMarker, random)], [DeleteMarker]) by {
      assert pairs[1..] == [d];
    }
  }

  /** The worked example: `{bio: "hi", avatar: null, nickname: ""}`. */
  lemma ExamplePlan(random: Numeral)
    ensures PlanInfo(Obj(ExamplePayload()), random)
         == Normal(Plan([("bio", "hi"), (UpdateMarker, random)], ["avatar", "nickname", DeleteMarker]))
  {
    ExampleNormalised(random);
    ExampleStringified(random);
    ExampleGrouped(random);
  }

  function ExamplePayload(): seq<Prop>
  {
    [Prop("bio", Str("hi")), Prop("avatar", Null), Prop("nickname", Str(""))]
  }

  lemma ExampleNormalised(random: Numeral)
    ensures Normalise(ExamplePayload(), random)
         == ExamplePayload() + [Prop(UpdateMarker, Num(random)), Prop(DeleteMarker, Undefined)]
  {
    var props := ExamplePayload();
    var u := Prop(UpdateMarker, Num(random));
    var d := Prop(DeleteMarker, Undefined);
    assert Remove(props, ImageKey) == props by {
      assert Remove(props[2..], ImageKey) == props[2..] by {
        assert Remove(props[3..], ImageKey) == [];
      }
      assert Remove(props[1..], ImageKey) == [props[1]] + props[2..];
    }
    assert Put(props, UpdateMarker, Num(random)) == props + [u] by {
      assert Put(props[2..], UpdateMarker, Num(random)) == [props[2], u] by {
        assert Put(props[3..], UpdateMarker, Num(random)) == [u];
      }
      assert Put(props[1..], UpdateMarker, Num(random)) == [props[1], props[2], u];
    }
    var pu := props + [u];
    assert Put(pu[4..], DeleteMarker, Undefined) == [d];
    assert Put(pu[3..], DeleteMarker, Undefined) == [u, d];
    assert Put(pu[2..], DeleteMarker, Undefined) == [props[2], u, d];
    assert Put(pu[1..], DeleteMarker, Undefined) == [props[1], props[2], u, d];
  }

  function ExamplePairs(random: Numeral): seq<Prop>
  {
    [Prop("bio", Str("hi")), Prop("avatar", Null), Prop("nickname", Str("")),
     Prop(UpdateMarker, Str(random)), Prop(DeleteMarker, Undefined)]
  }

  lemma ExampleStringified(random: Numeral)
    ensures MapValues(ExamplePayload() + [Prop(UpdateMarker, Num(random)), Prop(DeleteMarker, Undefined)])
         == ExamplePairs(random)
  {
    var n := ExamplePayload() + [Prop(UpdateMarker, Num(random)), Prop(DeleteMarker, Undefined)];
    var pairs := ExamplePairs(random);
    assert MapValues(n[5..]) == [];
    assert MapValues(n[4..]) == pairs[4..];
    assert MapValues(n[3..]) == pairs[3..];
    assert MapValues(n[2..]) == pairs[2..];
    assert MapValues(n[1..]) == pairs[1..];
  }

  lemma ExampleGrouped(random: Numeral)
    ensures GroupPairs(ExamplePairs(random))
         == Plan([("bio", "hi"), (UpdateMarker, random)], ["avatar", "nickname", DeleteMarker])
  {
    var pairs := ExamplePairs(random);
    assert GroupPairs(pairs[5..]) == Plan([], []);
    assert GroupPairs(pairs[4..]) == Plan([], [DeleteMarker]);
    assert GroupPairs(pairs[3..]) == Plan([(UpdateMarker, random)], [DeleteMarker]);
    assert GroupPairs(pairs[2..]) == Plan([(UpdateMarker, random)], ["nickname", DeleteMarker]);
    assert GroupPairs(pairs[1..]) == Plan([(UpdateMarker, random)], ["avatar", "nickname", DeleteMarker]);
  }
}
