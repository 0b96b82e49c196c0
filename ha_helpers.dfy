/**
 * ai_engine/lib/ha_helpers.py: group expansion over the Home Assistant state
 * snapshot, the checks and payload of a service call, and the shaping of
 * states and history for the language model.
 */
module HaHelpers {
  import opened Wrappers
  import opened Strings
  import opened Json

  /** One entry of the Home Assistant state snapshot. */
  datatype State = State(entityId: string, state: Value, attributes: seq<(string, Value)>)

  /** The first state in the snapshot with the given id. */
  function FindState(states: seq<State>, id: string): (r: Option<State>)
    ensures r.Some? ==> r.value in states && r.value.entityId == id
    ensures r.None? ==> forall k :: 0 <= k < |states| ==> states[k].entityId != id
  {
    if states == [] then None
    else if states[0].entityId == id then Some(states[0])
    else FindState(states[1..], id)
  }

  /** FindState returns the first matching state: every state before it has another id. */
  lemma {:induction false} FindStateFirst(states: seq<State>, id: string)
    requires FindState(states, id).Some?
    ensures exists k :: 0 <= k < |states| && states[k] == FindState(states, id).value &&
                        forall j :: 0 <= j < k ==> states[j].entityId != id
    decreases |states|
  {
    if states[0].entityId != id {
      FindStateFirst(states[1..], id);
      var k :| 0 <= k < |states[1..]| && states[1..][k] == FindState(states[1..], id).value &&
               forall j :: 0 <= j < k ==> states[1..][j].entityId != id;
      assert states[k + 1] == FindState(states, id).value;
      forall j | 0 <= j < k + 1
        ensures states[j].entityId != id
      {
        if j > 0 { assert states[j] == states[1..][j - 1]; }
      }
    } else {
      assert states[0] == FindState(states, id).value;
    }
  }

  // ---------------------------------------------------------------------
  // Group expansion
  // ---------------------------------------------------------------------

  /**
   * A bound on the nesting the expansion follows. Python gives up earlier, since
   * its limit of 1000 frames also holds the frames of the callers.
   */
  const MaxDepth: nat := 1000

  const RecursionMessage := "maximum recursion depth exceeded"

  /** The ids to check: a list as it is, anything else as a one-element list. */
  function Targets(ids: Value): (r: seq<Value>)
    ensures ids.Arr? ==> r == ids.items
    ensures !ids.Arr? ==> r == [ids]
  {
    if ids.Arr? then ids.items else [ids]
  }

  /** The member list of a group: the entity_id attribute of its state, if both exist. */
  function Members(states: seq<State>, id: string): Option<Value> {
    match FindState(states, id)
    case None => None
    case Some(g) => Lookup(g.attributes, "entity_id")
  }

  /**
   * expand_ha_groups: the set of ids after replacing every expandable group by
   * the expansion of its members. The fuel counts recursion levels; running
   * out stands for Python's RecursionError on cyclic membership.
   */
  function Expand(ids: Value, states: seq<State>, fuel: nat): Result<set<string>>
    decreases fuel, 1, 0
  {
    ExpandItems(Targets(ids), states, fuel)
  }

  /** The items in order; the first error stops the expansion. */
  function ExpandItems(items: seq<Value>, states: seq<State>, fuel: nat): Result<set<string>>
    decreases fuel, 0, |items|
  {
    if items == [] then Ok({})
    else
      match ExpandItems(items[..|items| - 1], states, fuel)
      case Err(e) => Err(e)
      case Ok(done) =>
        match ExpandOne(items[|items| - 1], states, fuel)
        case Err(e) => Err(e)
        case Ok(more) => Ok(done + more)
  }

  function ExpandOne(item: Value, states: seq<State>, fuel: nat): Result<set<string>>
    decreases fuel, 0, 0
  {
    if !item.Str? then Err("'" + TypeName(item) + "' object has no attribute 'startswith'")
    else if !StartsWith(item.s, "group.") then Ok({item.s})
    else
      match Members(states, item.s)
      case None => Ok({item.s})
      case Some(members) =>
        if fuel == 0 then Err(RecursionMessage) else Expand(members, states, fuel - 1)
  }

  /** An id that expansion leaves as it is: not a group, or a group without state or members. */
  predicate Settled(id: string, states: seq<State>) {
    !StartsWith(id, "group.") || Members(states, id).None?
  }

  lemma {:induction false} ExpandItemsErrSticks(items: seq<Value>, states: seq<State>, fuel: nat, n: nat)
    requires n <= |items|
    requires ExpandItems(items[..n], states, fuel).Err?
    ensures ExpandItems(items, states, fuel) == ExpandItems(items[..n], states, fuel)
    decreases |items| - n
  {
    if n < |items| {
      assert items[..|items| - 1][..n] == items[..n];
      ExpandItemsErrSticks(items[..|items| - 1], states, fuel, n);
    } else {
      assert items[..n] == items;
    }
  }

  /** A one-item list expands as its item does. */
  lemma ExpandSingle(item: Value, states: seq<State>, fuel: nat)
    ensures ExpandItems([item], states, fuel) == ExpandOne(item, states, fuel)
  {
    assert [item][..0] == [];
    assert [item][0] == item;
    if ExpandOne(item, states, fuel).Ok? {
      var more := ExpandOne(item, states, fuel).value;
      assert {} + more == more;
    }
  }

  /** The text of a string value. */
  function StrOf(v: Value): string {
    if v.Str? then v.s else ""
  }

  /** Settled string ids expand to exactly themselves. */
  lemma {:induction false} ExpandSettledItems(items: seq<Value>, states: seq<State>, fuel: nat)
    requires forall k :: 0 <= k < |items| ==> items[k].Str? && Settled(items[k].s, states)
    ensures ExpandItems(items, states, fuel) == Ok(set v | v in items :: StrOf(v))
    decreases |items|
  {
    if items != [] {
      var n := |items| - 1;
      var pre := items[..n];
      assert forall k :: 0 <= k < n ==> pre[k] == items[k];
      ExpandSettledItems(pre, states, fuel);
      assert ExpandOne(items[n], states, fuel) == Ok({items[n].s});
      assert items == pre + [items[n]];
      assert (set v | v in items :: StrOf(v)) == (set v | v in pre :: StrOf(v)) + {StrOf(items[n])};
    } else {
      assert (set v | v in items :: StrOf(v)) == {};
    }
  }

  /** Non-group ids pass through: a group-free input expands to the set of its ids. */
  lemma ExpandFlat(ids: Value, states: seq<State>, fuel: nat)
    requires forall k :: 0 <= k < |Targets(ids)| ==>
               Targets(ids)[k].Str? && !StartsWith(Targets(ids)[k].s, "group.")
    ensures Expand(ids, states, fuel) == Ok(set v | v in Targets(ids) :: StrOf(v))
  {
    ExpandSettledItems(Targets(ids), states, fuel);
  }

  /** Everything expansion returns is settled. */
  lemma {:induction false} ExpandResultSettled(ids: Value, states: seq<State>, fuel: nat)
    requires Expand(ids, states, fuel).Ok?
    ensures forall x :: x in Expand(ids, states, fuel).value ==> Settled(x, states)
    decreases fuel, 1, 0
  {
    ExpandItemsResultSettled(Targets(ids), states, fuel);
  }

  lemma {:induction false} ExpandItemsResultSettled(items: seq<Value>, states: seq<State>, fuel: nat)
    requires ExpandItems(items, states, fuel).Ok?
    ensures forall x :: x in ExpandItems(items, states, fuel).value ==> Settled(x, states)
    decreases fuel, 0, |items|
  {
    if items != [] {
      ExpandItemsResultSettled(items[..|items| - 1], states, fuel);
      ExpandOneResultSettled(items[|items| - 1], states, fuel);
    }
  }

  lemma {:induction false} ExpandOneResultSettled(item: Value, states: seq<State>, fuel: nat)
    requires ExpandOne(item, states, fuel).Ok?
    ensures forall x :: x in ExpandOne(item, states, fuel).value ==> Settled(x, states)
    decreases fuel, 0, 0
  {
    if item.Str? && StartsWith(item.s, "group.") && Members(states, item.s).Some? {
      ExpandResultSettled(Members(states, item.s).value, states, fuel - 1);
    }
  }

  /** Expansion is idempotent: expanding any listing of a result gives the same set back. */
  lemma ExpandIdempotent(ids: Value, states: seq<State>, fuel: nat, listing: seq<string>)
    requires Expand(ids, states, fuel).Ok?
    requires (set x | x in listing) == Expand(ids, states, fuel).value
    ensures Expand(Arr(seq(|listing|, k requires 0 <= k < |listing| => Str(listing[k]))), states, fuel)
            == Expand(ids, states, fuel)
  {
    var items := seq(|listing|, k requires 0 <= k < |listing| => Str(listing[k]));
    ExpandResultSettled(ids, states, fuel);
    forall k | 0 <= k < |items| ensures items[k].Str? && Settled(items[k].s, states) {
      assert listing[k] in (set x | x in listing);
    }
    ExpandSettledItems(items, states, fuel);
    assert (set v | v in items :: StrOf(v)) == (set x | x in listing) by {
      forall x | x in listing ensures x in (set v | v in items :: StrOf(v)) {
        var k :| 0 <= k < |listing| && listing[k] == x;
        assert items[k] in items;
      }
    }
  }

  /** There is no visited set: a group listed among its own first members never expands. */
  lemma {:induction false} SelfMemberedGroupFails(g: string, states: seq<State>, fuel: nat)
    requires StartsWith(g, "group.")
    requires Members(states, g).Some?
    requires |Targets(Members(states, g).value)| > 0 && Targets(Members(states, g).value)[0] == Str(g)
    ensures Expand(Str(g), states, fuel) == Err(RecursionMessage)
    decreases fuel
  {
    ExpandSingle(Str(g), states, fuel);
    if fuel > 0 {
      var items := Targets(Members(states, g).value);
      SelfMemberedGroupFails(g, states, fuel - 1);
      assert items[..1] == [Str(g)];
      ExpandSingle(Str(g), states, fuel - 1);
      ExpandItemsErrSticks(items, states, fuel - 1, 1);
    }
  }

  /** expand_ha_groups as the source runs it: a loop over the ids that recurses into groups. */
  method ExpandHaGroups(entityIds: Value, allStates: seq<State>, fuel: nat) returns (r: Result<set<string>>)
    ensures r == Expand(entityIds, allStates, fuel)
    decreases fuel, 1, 0
  {
    var expanded: set<string> := {};
    var toCheck := Targets(entityIds);
    var i := 0;
    while i < |toCheck|
      invariant 0 <= i <= |toCheck|
      invariant ExpandItems(toCheck[..i], allStates, fuel) == Ok(expanded)
    {
      assert toCheck[..i + 1][..i] == toCheck[..i];
      var one := ExpandEntity(toCheck[i], allStates, fuel);
      if one.Err? {
        ExpandItemsErrSticks(toCheck, allStates, fuel, i + 1);
        return Err(one.error);
      }
      expanded := expanded + one.value;
      i := i + 1;
    }
    assert toCheck[..|toCheck|] == toCheck;
    r := Ok(expanded);
  }

  /** The loop body for one id. */
  method ExpandEntity(entityId: Value, allStates: seq<State>, fuel: nat) returns (r: Result<set<string>>)
    ensures r == ExpandOne(entityId, allStates, fuel)
    decreases fuel, 0, 0
  {
    if !entityId.Str? {
      return Err("'" + TypeName(entityId) + "' object has no attribute 'startswith'");
    }
    if !StartsWith(entityId.s, "group.") {
      return Ok({entityId.s});
    }
    var groupState := FindState(allStates, entityId.s);
    if groupState.Some? && Lookup(groupState.value.attributes, "entity_id").Some? {
      if fuel == 0 {
        return Err(RecursionMessage);
      }
      r := ExpandHaGroups(Lookup(groupState.value.attributes, "entity_id").value, allStates, fuel - 1);
    } else {
      r := Ok({entityId.s});
    }
  }

  // ---------------------------------------------------------------------
  // Service calls
  // ---------------------------------------------------------------------

  /** The request call_homeassistant_api posts to /services/<domain>/<action>, with its payload as JSON text. */
  datatype ServiceCall = ServiceCall(domain: string, action: string, payload: seq<(string, Value)>)

  /** What a call comes to: a string returned before any request, an exception, or a request made. */
  datatype ApiOutcome =
    | Returned(message: string)
    | Raised(message: string)
    | Posted(call: ServiceCall)

  const NotConfigured := "Error: Addon is not configured with API access."

  function InvalidFormat(service: Value): string {
    "Error: Invalid service format '" + PyStr(service) + "'. Expected 'domain.action'."
  }

  /** A dict key json.loads can hand to dict.update inside a list: None, a bool, a number or a string. */
  datatype Key = KNull | KBool(b: bool) | KNum(n: int) | KStr(s: string)

  /** A Python dict in insertion order; no two of its keys are equal in Python's sense. */
  type Dict = seq<(Key, Value)>

  /** What Python compares and hashes a key by: True and False are the numbers 1 and 0. */
  function KeyValue(k: Key): Key {
    match k
    case KBool(b) => KNum(if b then 1 else 0)
    case _ => k
  }

  /** Python's `==` on keys: a bool equals the number it stands for, and a number never equals a string. */
  predicate SameKey(a: Key, b: Key) {
    KeyValue(a) == KeyValue(b)
  }

  function DictKeys(d: Dict): seq<Key> {
    seq(|d|, i requires 0 <= i < |d| => d[i].0)
  }

  /** d[key]: the value stored under the key equal to key, if there is one. */
  function Find(d: Dict, key: Key): (r: Option<Value>)
    ensures r.None? <==> forall i :: 0 <= i < |d| ==> !SameKey(d[i].0, key)
  {
    if d == [] then None
    else if SameKey(d[0].0, key) then Some(d[0].1)
    else
      var r := Find(d[1..], key);
      assert forall i :: 0 < i < |d| ==> d[i] == d[1..][i - 1];
      r
  }

  /**
   * dict[key] = value: a key equal to key keeps its place and its own form (True stays True
   * when 1 is assigned) and takes the new value; a new key goes last.
   */
  function Assign(d: Dict, key: Key, value: Value): Dict {
    if d == [] then [(key, value)]
    else if SameKey(d[0].0, key) then [(d[0].0, value)] + d[1..]
    else [d[0]] + Assign(d[1..], key, value)
  }

  /** After dict[key] = value, keys equal to key give value and every other key gives what it gave. */
  lemma {:induction false} AssignFind(d: Dict, key: Key, value: Value, k: Key)
    ensures Find(Assign(d, key, value), k) == if SameKey(k, key) then Some(value) else Find(d, k)
    decreases |d|
  {
    if d != [] && !SameKey(d[0].0, key) {
      AssignFind(d[1..], key, value, k);
      assert Assign(d, key, value)[1..] == Assign(d[1..], key, value);
    } else if d != [] {
      assert Assign(d, key, value)[1..] == d[1..];
    }
  }

  /** dict[key] = value keeps the key order, and adds key at the end exactly when no equal key is there. */
  lemma {:induction false} AssignKeys(d: Dict, key: Key, value: Value)
    ensures Find(d, key).Some? ==> DictKeys(Assign(d, key, value)) == DictKeys(d)
    ensures Find(d, key).None? ==> DictKeys(Assign(d, key, value)) == DictKeys(d) + [key]
    decreases |d|
  {
    if d != [] {
      var r := Assign(d, key, value);
      assert DictKeys(d) == [d[0].0] + DictKeys(d[1..]);
      if SameKey(d[0].0, key) {
        assert r[1..] == d[1..];
        assert DictKeys(r) == [d[0].0] + DictKeys(d[1..]);
      } else {
        AssignKeys(d[1..], key, value);
        assert r[1..] == Assign(d[1..], key, value);
        assert DictKeys(r) == [d[0].0] + DictKeys(r[1..]);
      }
    }
  }

  /** A key with no equal key in the dict is appended. */
  lemma {:induction false} AssignNew(d: Dict, key: Key, value: Value)
    requires Find(d, key).None?
    ensures Assign(d, key, value) == d + [(key, value)]
    decreases |d|
  {
    if d != [] {
      AssignNew(d[1..], key, value);
      assert d == [d[0]] + d[1..];
    }
  }

  /** dict.update with key/value pairs, in order. */
  function AssignAll(d: Dict, pairs: Dict): Dict
    decreases |pairs|
  {
    if pairs == [] then d
    else AssignAll(Assign(d, pairs[0].0, pairs[0].1), pairs[1..])
  }

  /** The value of the last pair whose key equals key. */
  function LastFind(pairs: Dict, key: Key): Option<Value>
    decreases |pairs|
  {
    if pairs == [] then None
    else match LastFind(pairs[1..], key)
      case Some(v) => Some(v)
      case None => if SameKey(pairs[0].0, key) then Some(pairs[0].1) else None
  }

  /** After an update, a key holds the last value given for an equal key, or its old value. */
  lemma {:induction false} AssignAllLookup(d: Dict, pairs: Dict, key: Key)
    ensures Find(AssignAll(d, pairs), key) ==
              match LastFind(pairs, key)
              case Some(v) => Some(v)
              case None => Find(d, key)
    decreases |pairs|
  {
    if pairs != [] {
      AssignAllLookup(Assign(d, pairs[0].0, pairs[0].1), pairs[1..], key);
      AssignFind(d, pairs[0].0, pairs[0].1, key);
    }
  }

  /** JSON's rendering of a dict key (json.dumps turns 1, True and None into "1", "true" and "null"). */
  function JsonKey(k: Key): string {
    match k
    case KStr(s) => s
    case KNum(n) => IntToString(n)
    case KBool(b) => if b then "true" else "false"
    case KNull => "null"
  }

  /** json.dumps of the payload: every key becomes its JSON text, so 1 and "1" both read "1". */
  function Render(d: Dict): (r: seq<(string, Value)>)
    ensures |r| == |d|
    ensures forall i :: 0 <= i < |d| ==> r[i] == (JsonKey(d[i].0), d[i].1)
  {
    seq(|d|, i requires 0 <= i < |d| => (JsonKey(d[i].0), d[i].1))
  }

  /** The fields of a dict given to dict.update: string keys. */
  function StrKeys(fields: seq<(string, Value)>): (r: Dict)
    ensures |r| == |fields|
    ensures forall i :: 0 <= i < |fields| ==> r[i] == (KStr(fields[i].0), fields[i].1)
  {
    seq(|fields|, i requires 0 <= i < |fields| => (KStr(fields[i].0), fields[i].1))
  }

  /** A hashable value as a dict key. */
  function ToKey(v: Value): Key
    requires !v.Arr? && !v.Obj?
  {
    match v
    case Null => KNull
    case Bool(b) => KBool(b)
    case Num(n) => KNum(n)
    case Str(s) => KStr(s)
  }

  /** One element of a sequence given to dict.update: a two-item sequence becomes a pair. */
  function UpdatePair(item: Value, index: nat): Result<(Key, Value)> {
    var prefix := "dictionary update sequence element #" + NatToString(index);
    match item
    case Arr(xs) =>
      if |xs| != 2 then Err(prefix + " has length " + NatToString(|xs|) + "; 2 is required")
      else if xs[0].Arr? || xs[0].Obj? then Err("unhashable type: '" + TypeName(xs[0]) + "'")
      else Ok((ToKey(xs[0]), xs[1]))
    case Str(s) =>
      if |s| != 2 then Err(prefix + " has length " + NatToString(|s|) + "; 2 is required")
      else Ok((KStr([s[0]]), Str([s[1]])))
    case Obj(fs) =>
      if |fs| != 2 then Err(prefix + " has length " + NatToString(|fs|) + "; 2 is required")
      else Ok((KStr(fs[0].0), Str(fs[1].0)))
    case _ => Err("cannot convert " + prefix + " to a sequence")
  }

  function UpdatePairs(items: seq<Value>, from: nat): Result<Dict>
    decreases |items|
  {
    if items == [] then Ok([])
    else match UpdatePair(items[0], from)
      case Err(e) => Err(e)
      case Ok(p) =>
        match UpdatePairs(items[1..], from + 1)
        case Err(e) => Err(e)
        case Ok(ps) => Ok([p] + ps)
  }

  /** `payload = {"entity_id": entity_id}`. */
  function TargetPayload(entityId: Value): Dict {
    [(KStr("entity_id"), entityId)]
  }

  /** `if parameters: payload.update(parameters)`. */
  function Overlay(payload: Dict, parameters: Value): Result<Dict> {
    if !Truthy(parameters) then Ok(payload)
    else match parameters
      case Obj(fields) => Ok(AssignAll(payload, StrKeys(fields)))
      case Arr(items) =>
        (match UpdatePairs(items, 0)
         case Err(e) => Err(e)
         case Ok(pairs) => Ok(AssignAll(payload, pairs)))
      case Str(s) => Err("dictionary update sequence element #0 has length 1; 2 is required")
      case _ => Err("'" + TypeName(parameters) + "' object is not iterable")
  }

  /**
   * call_homeassistant_api up to the request: the token check comes first, then
   * the service format, then the split into domain and action and the payload.
   */
  function CallHomeAssistantApi(hasToken: bool, service: Value, entityId: Value, parameters: Value): (r: ApiOutcome)
    ensures !hasToken ==> r == Returned(NotConfigured)
    ensures hasToken && !Truthy(service) ==> r == Returned(InvalidFormat(service))
    ensures hasToken && service.Str? && service.s != [] && '.' !in service.s ==> r == Returned(InvalidFormat(service))
    ensures r.Posted? ==> hasToken && service.Str? && CountChar(service.s, '.') == 1 &&
                          service.s == r.call.domain + "." + r.call.action
  {
    if !hasToken then Returned(NotConfigured)
    else if !Truthy(service) then Returned(InvalidFormat(service))
    else match Contains(service, ".")
      case Err(e) => Raised(e)
      case Ok(hasDot) =>
        if !hasDot then Returned(InvalidFormat(service))
        else if !service.Str? then Raised("'" + TypeName(service) + "' object has no attribute 'split'")
        else if CountChar(service.s, '.') != 1 then Raised("too many values to unpack (expected 2)")
        else
          match Overlay(TargetPayload(entityId), parameters)
          case Err(e) => Raised(e)
          case Ok(payload) =>
            SplitAtOnlyDot(service.s);
            Posted(ServiceCall(BeforeFirst(service.s, '.'), AfterLast(service.s, '.'), Render(payload)))
  }

  /** A service with two or more dots fails the unpacking into domain and action. */
  lemma ApiTooManyDots(hasToken: bool, service: Value, entityId: Value, parameters: Value)
    requires hasToken && service.Str? && CountChar(service.s, '.') >= 2
    ensures CallHomeAssistantApi(hasToken, service, entityId, parameters) == Raised("too many values to unpack (expected 2)")
  {
    CountCharZero(service.s, '.');
    ContainsChar(service.s, '.');
  }

  lemma CountCharZero(s: string, c: char)
    ensures CountChar(s, c) == 0 <==> c !in s
  {
    if s != [] {
      CountCharZero(s[1..], c);
      assert s == [s[0]] + s[1..];
    }
  }

  /** A string with exactly one dot is the text before it, the dot and the text after it. */
  lemma SplitAtOnlyDot(s: string)
    requires CountChar(s, '.') == 1
    ensures s == BeforeFirst(s, '.') + "." + AfterLast(s, '.')
  {
    CountCharZero(s, '.');
    var k := FindChar(s, '.');
    assert s == s[..k] + [s[k]] + s[k + 1..];
    CountCharSplit(s[..k], s[k + 1..], s[k]);
    CountCharZero(s[..k], '.');
    CountCharZero(s[k + 1..], '.');
    var t := s[k + 1..];
    assert FindChar(t, '.') == -1;
  }

  lemma {:induction false} CountCharSplit(a: string, b: string, c: char)
    ensures CountChar(a + [c] + b, '.') == CountChar(a, '.') + CountChar([c], '.') + CountChar(b, '.')
  {
    CountCharAppend(a, [c] + b);
    CountCharAppend([c], b);
    assert a + [c] + b == a + ([c] + b);
  }

  lemma {:induction false} CountCharAppend(a: string, b: string)
    ensures CountChar(a + b, '.') == CountChar(a, '.') + CountChar(b, '.')
    decreases |a|
  {
    if a != [] {
      CountCharAppend(a[1..], b);
      assert (a + b)[1..] == a[1..] + b;
    } else {
      assert a + b == b;
    }
  }

  /** A non-empty dict of parameters updates the payload key by key. */
  lemma OverlayObj(payload: Dict, fields: seq<(string, Value)>)
    requires fields != []
    ensures Overlay(payload, Obj(fields)) == Ok(AssignAll(payload, StrKeys(fields)))
  {
  }

  /** A service with exactly one dot is posted to its domain and action, with the overlaid payload as JSON. */
  lemma ValidServicePosts(service: string, entityId: Value, parameters: Value)
    requires CountChar(service, '.') == 1
    requires Overlay(TargetPayload(entityId), parameters).Ok?
    ensures CallHomeAssistantApi(true, Str(service), entityId, parameters) ==
              Posted(ServiceCall(BeforeFirst(service, '.'), AfterLast(service, '.'),
                                 Render(Overlay(TargetPayload(entityId), parameters).value)))
  {
    assert Contains(Str(service), ".") == Ok(true) by {
      CountCharZero(service, '.');
      ContainsChar(service, '.');
    }
  }

  predicate StringKeyed(d: Dict) {
    forall i :: 0 <= i < |d| ==> d[i].0.KStr?
  }

  /** dict[key] = value with a string key keeps a dict string-keyed. */
  lemma {:induction false} AssignStringKeyed(d: Dict, key: Key, value: Value)
    requires StringKeyed(d) && key.KStr?
    ensures StringKeyed(Assign(d, key, value))
    decreases |d|
  {
    if d != [] && !SameKey(d[0].0, key) {
      AssignStringKeyed(d[1..], key, value);
    }
  }

  /** Updating with string keys keeps a dict string-keyed. */
  lemma {:induction false} AssignAllStringKeyed(d: Dict, pairs: Dict)
    requires StringKeyed(d) && StringKeyed(pairs)
    ensures StringKeyed(AssignAll(d, pairs))
    decreases |pairs|
  {
    if pairs != [] {
      AssignStringKeyed(d, pairs[0].0, pairs[0].1);
      AssignAllStringKeyed(Assign(d, pairs[0].0, pairs[0].1), pairs[1..]);
    }
  }

  /** With string keys only, the JSON text holds each key once, under its own name. */
  lemma {:induction false} RenderStringKeyed(d: Dict, key: string)
    requires StringKeyed(d)
    ensures Lookup(Render(d), key) == Find(d, KStr(key))
    decreases |d|
  {
    if d != [] {
      RenderStringKeyed(d[1..], key);
      assert Render(d) == [Render(d)[0]] + Render(d[1..]);
    }
  }

  /** The service's parameters overlay the payload, so an entity_id parameter replaces the target. */
  lemma ParametersOverrideTarget(service: string, entityId: Value, fields: seq<(string, Value)>)
    requires CountChar(service, '.') == 1
    requires fields != []
    ensures var r := CallHomeAssistantApi(true, Str(service), entityId, Obj(fields));
            && r.Posted?
            && Lookup(r.call.payload, "entity_id") ==
                 match LastFind(StrKeys(fields), KStr("entity_id"))
                 case Some(v) => Some(v)
                 case None => Some(entityId)
  {
    var payload := AssignAll(TargetPayload(entityId), StrKeys(fields));
    OverlayObj(TargetPayload(entityId), fields);
    ValidServicePosts(service, entityId, Obj(fields));
    AssignAllStringKeyed(TargetPayload(entityId), StrKeys(fields));
    RenderStringKeyed(payload, "entity_id");
    AssignAllLookup(TargetPayload(entityId), StrKeys(fields), KStr("entity_id"));
  }

  /** dict.update reads the pairs of a list front to back. */
  lemma UpdatePairsCons(x: Value, rest: seq<Value>, from: nat, p: (Key, Value), ps: Dict)
    requires UpdatePair(x, from) == Ok(p) && UpdatePairs(rest, from + 1) == Ok(ps)
    ensures UpdatePairs([x] + rest, from) == Ok([p] + ps)
  {
    assert ([x] + rest)[1..] == rest;
  }

  /** True and 1 are one key: the later value lands under the earlier key, which is posted as "true". */
  lemma TrueAndOneMerge(entityId: Value)
    ensures var params := Arr([Arr([Bool(true), Str("a")]), Arr([Num(1), Str("b")])]);
            && Overlay(TargetPayload(entityId), params) == Ok([(KStr("entity_id"), entityId), (KBool(true), Str("b"))])
            && Render(Overlay(TargetPayload(entityId), params).value) == [("entity_id", entityId), ("true", Str("b"))]
  {
    var first := Arr([Bool(true), Str("a")]);
    var second := Arr([Num(1), Str("b")]);
    var items := [first, second];
    assert UpdatePair(second, 1) == Ok((KNum(1), Str("b")));
    UpdatePairsCons(second, [], 1, (KNum(1), Str("b")), []);
    assert [second] + [] == [second] && [(KNum(1), Str("b"))] + [] == [(KNum(1), Str("b"))];
    assert UpdatePairs([second], 1) == Ok([(KNum(1), Str("b"))]);
    assert UpdatePair(first, 0) == Ok((KBool(true), Str("a")));
    UpdatePairsCons(first, [second], 0, (KBool(true), Str("a")), [(KNum(1), Str("b"))]);
    var pairs := [(KBool(true), Str("a")), (KNum(1), Str("b"))];
    assert [first] + [second] == items;
    AssignNew(TargetPayload(entityId), KBool(true), Str("a"));
    var d1 := Assign(TargetPayload(entityId), KBool(true), Str("a"));
    assert d1 == [(KStr("entity_id"), entityId), (KBool(true), Str("a"))];
    assert SameKey(KBool(true), KNum(1)) && !SameKey(KStr("entity_id"), KNum(1));
    assert d1[1..] == [(KBool(true), Str("a"))];
    assert Assign(d1[1..], KNum(1), Str("b")) == [(KBool(true), Str("b"))] + d1[1..][1..];
    var d2 := Assign(d1, KNum(1), Str("b"));
    assert d2 == [(KStr("entity_id"), entityId), (KBool(true), Str("b"))];
    assert AssignAll(TargetPayload(entityId), pairs) == AssignAll(d1, pairs[1..]);
    assert AssignAll(d1, pairs[1..]) == AssignAll(d2, []);
  }

  /** 1 and "1" are two keys, so the posted JSON names "1" twice. */
  lemma OneAndStringOneApart(entityId: Value)
    ensures var params := Arr([Arr([Num(1), Str("a")]), Arr([Str("1"), Str("b")])]);
            && Overlay(TargetPayload(entityId), params) ==
                 Ok([(KStr("entity_id"), entityId), (KNum(1), Str("a")), (KStr("1"), Str("b"))])
            && Render(Overlay(TargetPayload(entityId), params).value) ==
                 [("entity_id", entityId), ("1", Str("a")), ("1", Str("b"))]
  {
    var first := Arr([Num(1), Str("a")]);
    var second := Arr([Str("1"), Str("b")]);
    var items := [first, second];
    assert UpdatePair(second, 1) == Ok((KStr("1"), Str("b")));
    UpdatePairsCons(second, [], 1, (KStr("1"), Str("b")), []);
    assert [second] + [] == [second] && [(KStr("1"), Str("b"))] + [] == [(KStr("1"), Str("b"))];
    assert UpdatePairs([second], 1) == Ok([(KStr("1"), Str("b"))]);
    assert UpdatePair(first, 0) == Ok((KNum(1), Str("a")));
    UpdatePairsCons(first, [second], 0, (KNum(1), Str("a")), [(KStr("1"), Str("b"))]);
    var pairs := [(KNum(1), Str("a")), (KStr("1"), Str("b"))];
    assert [first] + [second] == items;
    AssignNew(TargetPayload(entityId), KNum(1), Str("a"));
    var d1 := Assign(TargetPayload(entityId), KNum(1), Str("a"));
    assert d1 == [(KStr("entity_id"), entityId), (KNum(1), Str("a"))];
    assert !SameKey(KNum(1), KStr("1")) && !SameKey(KStr("entity_id"), KStr("1"));
    assert d1[1..] == [(KNum(1), Str("a"))] && d1[1..][1..] == [];
    assert Assign(d1[1..][1..], KStr("1"), Str("b")) == [(KStr("1"), Str("b"))];
    assert Assign(d1[1..], KStr("1"), Str("b")) == [(KNum(1), Str("a")), (KStr("1"), Str("b"))];
    var d2 := Assign(d1, KStr("1"), Str("b"));
    assert d2 == [(KStr("entity_id"), entityId), (KNum(1), Str("a")), (KStr("1"), Str("b"))];
    assert AssignAll(TargetPayload(entityId), pairs) == AssignAll(d1, pairs[1..]);
    assert AssignAll(d1, pairs[1..]) == AssignAll(d2, []);
    assert JsonKey(KNum(1)) == "1" by { assert IntToString(1) == "1"; }
  }

  // ---------------------------------------------------------------------
  // prettify_states
  // ---------------------------------------------------------------------

  /** int(x) as the brightness conversion applies it; None where int() raises. */
  function PyInt(v: Value): Option<int> {
    match v
    case Num(n) => Some(n)
    case Bool(b) => Some(if b then 1 else 0)
    case Str(s) => ParseInt(s)
    case _ => None
  }

  /** round(b / 255 * 100) for an integer b: the integer nearest to 20b/51. No b lies
      halfway, since 40b - 102p is even, so the rounding of ties never matters. */
  function BrightnessPercent(b: int): (p: int)
    ensures -51 < 40 * b - 102 * p < 51
  {
    var p := (40 * b + 51) / 102;
    assert 40 * b - 102 * p == 2 * (20 * b - 51 * p);
    p
  }

  /** `key in attributes` followed by attributes[key], outside any try. */
  function Attribute(attributes: Value, key: string): Result<Option<Value>> {
    match Contains(attributes, key)
    case Err(e) => Err(e)
    case Ok(found) =>
      if !found then Ok(None)
      else match Index(attributes, key)
        case Err(e) => Err(e)
        case Ok(v) => Ok(Some(v))
  }

  /** The attribute of a dict is what Lookup finds; nothing raises. */
  lemma AttributeOfObj(attributes: seq<(string, Value)>, key: string)
    ensures Attribute(Obj(attributes), key) == Ok(Lookup(attributes, key))
  {
  }

  function AsIs(v: Value): Value {
    v
  }

  function Degrees(v: Value): Value {
    Str(PyStr(v) + "°")
  }

  /** The brightness as a percentage text, when int() accepts the raw value. */
  function Percent(raw: Value): Option<Value> {
    match PyInt(raw)
    case None => None
    case Some(b) => Some(Str(IntToString(BrightnessPercent(b)) + "%"))
  }

  /** The brightness entry: the membership test can raise, the rest sits inside the try. */
  function BrightnessField(attributes: Value): Result<seq<(string, Value)>> {
    match Contains(attributes, "brightness")
    case Err(e) => Err(e)
    case Ok(found) =>
      if !found then Ok([])
      else match Index(attributes, "brightness")
        case Err(_) => Ok([])
        case Ok(raw) =>
          match Percent(raw)
          case None => Ok([])
          case Some(p) => Ok([("brightness", p)])
  }

  /** The entry for an attribute kept under its own key, transformed by f. */
  function KeptField(attributes: Value, key: string, f: Value -> Value): Result<seq<(string, Value)>> {
    match Attribute(attributes, key)
    case Err(e) => Err(e)
    case Ok(v) => Ok(if v.Some? then [(key, f(v.value))] else [])
  }

  /** The pretty attributes of one state: brightness as a percentage when int() accepts it,
      the two temperatures with a degree sign, and the friendly name, in that order. */
  function PrettyAttributes(attributes: Value): Result<seq<(string, Value)>> {
    match BrightnessField(attributes)
    case Err(e) => Err(e)
    case Ok(brightness) =>
      match KeptField(attributes, "temperature", Degrees)
      case Err(e) => Err(e)
      case Ok(temperature) =>
        match KeptField(attributes, "current_temperature", Degrees)
        case Err(e) => Err(e)
        case Ok(current) =>
          match KeptField(attributes, "friendly_name", AsIs)
          case Err(e) => Err(e)
          case Ok(name) => Ok(brightness + temperature + current + name)
  }

  /** [key] when the flag holds, else nothing. */
  function KeyIf(flag: bool, key: string): seq<string> {
    if flag then [key] else []
  }

  /** Whether the brightness of a dict of attributes survives: present and accepted by int(). */
  predicate KeepsBrightness(attributes: seq<(string, Value)>) {
    Lookup(attributes, "brightness").Some? && Percent(Lookup(attributes, "brightness").value).Some?
  }

  lemma BrightnessFieldOfObj(attributes: seq<(string, Value)>)
    ensures var r := BrightnessField(Obj(attributes));
            && r.Ok?
            && Keys(r.value) == KeyIf(KeepsBrightness(attributes), "brightness")
            && (KeepsBrightness(attributes) ==>
                  r.value == [("brightness", Percent(Lookup(attributes, "brightness").value).value)])
  {
  }

  lemma KeptFieldOfObj(attributes: seq<(string, Value)>, key: string, f: Value -> Value)
    ensures var r := KeptField(Obj(attributes), key, f);
            && r.Ok?
            && Keys(r.value) == KeyIf(key in Keys(attributes), key)
            && (Lookup(attributes, key).Some? ==> r.value == [(key, f(Lookup(attributes, key).value))])
  {
    AttributeOfObj(attributes, key);
  }

  /** The four fields of a dict of attributes, each present exactly when its attribute is kept. */
  lemma PrettyParts(attributes: seq<(string, Value)>) returns (b: seq<(string, Value)>, t: seq<(string, Value)>,
                                                            c: seq<(string, Value)>, n: seq<(string, Value)>)
    ensures PrettyAttributes(Obj(attributes)) == Ok(b + t + c + n)
    ensures Keys(b) == KeyIf(KeepsBrightness(attributes), "brightness")
    ensures KeepsBrightness(attributes) ==>
              b == [("brightness", Percent(Lookup(attributes, "brightness").value).value)]
    ensures Keys(t) == KeyIf("temperature" in Keys(attributes), "temperature")
    ensures Lookup(attributes, "temperature").Some? ==>
              t == [("temperature", Degrees(Lookup(attributes, "temperature").value))]
    ensures Keys(c) == KeyIf("current_temperature" in Keys(attributes), "current_temperature")
    ensures Keys(n) == KeyIf("friendly_name" in Keys(attributes), "friendly_name")
    ensures Lookup(attributes, "friendly_name").Some? ==>
              n == [("friendly_name", Lookup(attributes, "friendly_name").value)]
  {
    var a := Obj(attributes);
    BrightnessFieldOfObj(attributes);
    KeptFieldOfObj(attributes, "temperature", Degrees);
    KeptFieldOfObj(attributes, "current_temperature", Degrees);
    KeptFieldOfObj(attributes, "friendly_name", AsIs);
    b := BrightnessField(a).value;
    t := KeptField(a, "temperature", Degrees).value;
    c := KeptField(a, "current_temperature", Degrees).value;
    n := KeptField(a, "friendly_name", AsIs).value;
  }

  /**
   * For a dict of attributes nothing raises, and exactly these keys come out, in
   * this order: brightness when int() accepts it, then temperature,
   * current_temperature and friendly_name each exactly when the state has it.
   */
  lemma PrettyAttributesKeys(attributes: seq<(string, Value)>)
    ensures var r := PrettyAttributes(Obj(attributes));
            && r.Ok?
            && Keys(r.value) ==
                 KeyIf(KeepsBrightness(attributes), "brightness")
                 + KeyIf("temperature" in Keys(attributes), "temperature")
                 + KeyIf("current_temperature" in Keys(attributes), "current_temperature")
                 + KeyIf("friendly_name" in Keys(attributes), "friendly_name")
  {
    var b, t, c, n := PrettyParts(attributes);
    KeysAppend(b, t);
    KeysAppend(b + t, c);
    KeysAppend(b + t + c, n);
  }

  /** A kept brightness is the percentage of the raw value. */
  lemma PrettyBrightness(attributes: seq<(string, Value)>)
    requires KeepsBrightness(attributes)
    ensures var r := PrettyAttributes(Obj(attributes));
            r.Ok? && Lookup(r.value, "brightness") == Percent(Lookup(attributes, "brightness").value)
  {
    var b, t, c, n := PrettyParts(attributes);
    KeysAppend(b, t);
    KeysAppend(b + t, c);
    LookupAppend(b + t + c, n, "brightness");
    LookupAppend(b + t, c, "brightness");
    LookupAppend(b, t, "brightness");
  }

  /** A temperature is kept with a degree sign after its text. */
  lemma PrettyTemperature(attributes: seq<(string, Value)>)
    requires Lookup(attributes, "temperature").Some?
    ensures var r := PrettyAttributes(Obj(attributes));
            r.Ok? && Lookup(r.value, "temperature") == Some(Degrees(Lookup(attributes, "temperature").value))
  {
    var b, t, c, n := PrettyParts(attributes);
    assert "temperature" !in Keys(b);
    KeysAppend(b, t);
    KeysAppend(b + t, c);
    LookupAppend(b + t + c, n, "temperature");
    LookupAppend(b + t, c, "temperature");
    LookupAppend(b, t, "temperature");
  }

  /** The friendly name is kept as it is. */
  lemma PrettyFriendlyName(attributes: seq<(string, Value)>)
    requires Lookup(attributes, "friendly_name").Some?
    ensures var r := PrettyAttributes(Obj(attributes));
            r.Ok? && Lookup(r.value, "friendly_name") == Lookup(attributes, "friendly_name")
  {
    var b, t, c, n := PrettyParts(attributes);
    KeysAppend(b, t);
    KeysAppend(b + t, c);
    LookupAppend(b + t + c, n, "friendly_name");
  }

  /** The pretty form of one truthy state object. */
  function PrettyEntry(stateObj: Value): Result<Value> {
    if !stateObj.Obj? then Err("'" + TypeName(stateObj) + "' object has no attribute 'get'")
    else
      var attributes := match Lookup(stateObj.fields, "attributes") case Some(a) => a case None => Obj([]);
      match PrettyAttributes(attributes)
      case Err(e) => Err(e)
      case Ok(pretty) =>
        Ok(Obj([("entity_id", Get(stateObj, "entity_id")), ("state", Get(stateObj, "state")),
                ("attributes", Obj(pretty))]))
  }

  /** The pretty entries of the items in order, falsy items skipped; the first error stops. */
  function PrettyList(items: seq<Value>): Result<seq<Value>>
    decreases |items|
  {
    if items == [] then Ok([])
    else
      match PrettyList(items[..|items| - 1])
      case Err(e) => Err(e)
      case Ok(done) =>
        var x := items[|items| - 1];
        if !Truthy(x) then Ok(done)
        else match PrettyEntry(x)
          case Err(e) => Err(e)
          case Ok(v) => Ok(done + [v])
  }

  /** The items `if not state_obj: continue` lets through, in their order. */
  function TruthyItems(items: seq<Value>): (r: seq<Value>)
    ensures |r| <= |items|
    ensures forall k :: 0 <= k < |r| ==> Truthy(r[k])
    decreases |items|
  {
    if items == [] then []
    else (if Truthy(items[0]) then [items[0]] else []) + TruthyItems(items[1..])
  }

  lemma {:induction false} TruthyItemsSnoc(items: seq<Value>, x: Value)
    ensures TruthyItems(items + [x]) == TruthyItems(items) + (if Truthy(x) then [x] else [])
    decreases |items|
  {
    if items == [] {
      assert TruthyItems([x]) == (if Truthy(x) then [x] else []) + TruthyItems([]);
    } else {
      assert (items + [x])[1..] == items[1..] + [x];
      TruthyItemsSnoc(items[1..], x);
    }
  }

  /** None for no entries, the one entry itself, or the list. */
  function Shape(entries: seq<Value>): Value {
    if entries == [] then Null
    else if |entries| == 1 then entries[0]
    else Arr(entries)
  }

  /** prettify_states: a non-list input is wrapped into a one-element list. */
  function PrettyStates(states: Value): Result<Value> {
    match PrettyList(Targets(states))
    case Err(e) => Err(e)
    case Ok(entries) => Ok(Shape(entries))
  }

  /**
   * A state dict becomes an object with exactly the keys entity_id, state and
   * attributes, in that order: the first two copied with dict.get, the last the
   * pretty attributes of its attributes ({} when it has none). Anything else
   * has no .get.
   */
  lemma PrettyEntryFields(stateObj: Value)
    ensures !stateObj.Obj? ==> PrettyEntry(stateObj) == Err("'" + TypeName(stateObj) + "' object has no attribute 'get'")
    ensures stateObj.Obj? ==>
              var attributes := match Lookup(stateObj.fields, "attributes") case Some(a) => a case None => Obj([]);
              var e := PrettyEntry(stateObj);
              && (e.Ok? <==> PrettyAttributes(attributes).Ok?)
              && (e.Err? ==> e.error == PrettyAttributes(attributes).error)
              && (e.Ok? ==>
                    && e.value.Obj?
                    && Keys(e.value.fields) == ["entity_id", "state", "attributes"]
                    && Lookup(e.value.fields, "entity_id") == Some(Get(stateObj, "entity_id"))
                    && Lookup(e.value.fields, "state") == Some(Get(stateObj, "state"))
                    && Lookup(e.value.fields, "attributes") == Some(Obj(PrettyAttributes(attributes).value)))
  {
    if stateObj.Obj? {
      var attributes := match Lookup(stateObj.fields, "attributes") case Some(a) => a case None => Obj([]);
      var pretty := PrettyAttributes(attributes);
      if pretty.Ok? {
        var fields := [("entity_id", Get(stateObj, "entity_id")), ("state", Get(stateObj, "state")),
                       ("attributes", Obj(pretty.value))];
        assert PrettyEntry(stateObj) == Ok(Obj(fields));
        assert Keys(fields) == ["entity_id", "state", "attributes"];
        assert fields[1..][1..][0].0 == "attributes";
      }
    }
  }

  /**
   * Entry k is the pretty form of the k-th truthy item, and there is one entry per
   * truthy item; the list fails exactly when some truthy item's entry fails, and
   * then with the error of the first such item.
   */
  lemma PrettyListEntries(items: seq<Value>)
    ensures var t := TruthyItems(items);
            var r := PrettyList(items);
            && (r.Ok? <==> forall k :: 0 <= k < |t| ==> PrettyEntry(t[k]).Ok?)
            && (r.Ok? ==> |r.value| == |t| && forall k :: 0 <= k < |t| ==> PrettyEntry(t[k]) == Ok(r.value[k]))
            && (r.Err? ==> exists k :: 0 <= k < |t| && PrettyEntry(t[k]) == Err(r.error) &&
                                       forall j :: 0 <= j < k ==> PrettyEntry(t[j]).Ok?)
  {
    PrettyListOk(items);
    PrettyListFirstError(items);
  }

  lemma {:induction false} PrettyListOk(items: seq<Value>)
    ensures var t := TruthyItems(items);
            var r := PrettyList(items);
            r.Ok? ==> |r.value| == |t| && forall k :: 0 <= k < |t| ==> PrettyEntry(t[k]) == Ok(r.value[k])
    decreases |items|
  {
    if items != [] && PrettyList(items).Ok? {
      var n := |items| - 1;
      var x := items[n];
      assert items[..n] + [x] == items;
      PrettyListOk(items[..n]);
      TruthyItemsSnoc(items[..n], x);
    }
  }

  lemma {:induction false} PrettyListFirstError(items: seq<Value>)
    ensures var t := TruthyItems(items);
            var r := PrettyList(items);
            r.Err? ==> exists k :: 0 <= k < |t| && PrettyEntry(t[k]) == Err(r.error) &&
                                   forall j :: 0 <= j < k ==> PrettyEntry(t[j]).Ok?
    decreases |items|
  {
    if items != [] && PrettyList(items).Err? {
      var n := |items| - 1;
      var x := items[n];
      assert items[..n] + [x] == items;
      TruthyItemsSnoc(items[..n], x);
      var t0 := TruthyItems(items[..n]);
      var r0 := PrettyList(items[..n]);
      if r0.Err? {
        PrettyListFirstError(items[..n]);
        FirstErrorExtends(t0, if Truthy(x) then [x] else [], r0.error);
      } else {
        PrettyListOk(items[..n]);
        FirstErrorAtEnd(t0, x, PrettyList(items).error);
      }
    }
  }

  /** Items after the first failing one do not change which one fails first. */
  lemma FirstErrorExtends(t0: seq<Value>, extra: seq<Value>, e: string)
    requires exists k :: 0 <= k < |t0| && PrettyEntry(t0[k]) == Err(e) &&
                         forall j :: 0 <= j < k ==> PrettyEntry(t0[j]).Ok?
    ensures var t := t0 + extra;
            exists k :: 0 <= k < |t| && PrettyEntry(t[k]) == Err(e) &&
                        forall j :: 0 <= j < k ==> PrettyEntry(t[j]).Ok?
  {
    var k :| 0 <= k < |t0| && PrettyEntry(t0[k]) == Err(e) && forall j :: 0 <= j < k ==> PrettyEntry(t0[j]).Ok?;
    var t := t0 + extra;
    assert t[k] == t0[k];
    assert forall j :: 0 <= j < k ==> t[j] == t0[j];
  }

  /** When every earlier entry succeeds, a failing last item is the first to fail. */
  lemma FirstErrorAtEnd(t0: seq<Value>, x: Value, e: string)
    requires forall k :: 0 <= k < |t0| ==> PrettyEntry(t0[k]).Ok?
    requires PrettyEntry(x) == Err(e)
    ensures var t := t0 + [x];
            exists k :: 0 <= k < |t| && PrettyEntry(t[k]) == Err(e) &&
                        forall j :: 0 <= j < k ==> PrettyEntry(t[j]).Ok?
  {
    var t := t0 + [x];
    assert t[|t0|] == x;
    assert forall j :: 0 <= j < |t0| ==> t[j] == t0[j];
  }

  /**
   * Zero truthy items give None, one gives that item's entry itself, more give the
   * list of their entries in order; a non-list input counts as a one-element list.
   */
  lemma PrettyStatesShape(states: Value)
    requires PrettyStates(states).Ok?
    ensures var t := TruthyItems(Targets(states));
            var r := PrettyStates(states).value;
            && (|t| == 0 <==> r == Null)
            && (|t| == 1 ==> PrettyEntry(t[0]) == Ok(r))
            && (|t| > 1 ==> r.Arr? && |r.items| == |t| &&
                             forall k :: 0 <= k < |t| ==> PrettyEntry(t[k]) == Ok(r.items[k]))
  {
    var t := TruthyItems(Targets(states));
    PrettyListEntries(Targets(states));
    if |t| > 0 {
      PrettyEntryFields(t[0]);
    }
  }

  lemma {:induction false} PrettyListErrSticks(items: seq<Value>, n: nat)
    requires n <= |items|
    requires PrettyList(items[..n]).Err?
    ensures PrettyList(items) == PrettyList(items[..n])
    decreases |items| - n
  {
    if n < |items| {
      assert items[..|items| - 1][..n] == items[..n];
      PrettyListErrSticks(items[..|items| - 1], n);
    } else {
      assert items[..n] == items;
    }
  }

  /** prettify_states as the source runs it: one pass appending to a list. */
  method PrettifyStates(states: Value) returns (r: Result<Value>)
    ensures r == PrettyStates(states)
  {
    var items := Targets(states);
    var prettyStates: seq<Value> := [];
    var i := 0;
    while i < |items|
      invariant 0 <= i <= |items|
      invariant PrettyList(items[..i]) == Ok(prettyStates)
    {
      assert items[..i + 1][..i] == items[..i];
      var stateObj := items[i];
      assert items[..i + 1][i] == stateObj;
      if Truthy(stateObj) {
        var entry := PrettyEntry(stateObj);
        if entry.Err? {
          assert PrettyList(items[..i + 1]) == Err(entry.error);
          PrettyListErrSticks(items, i + 1);
          return Err(entry.error);
        }
        assert PrettyList(items[..i + 1]) == Ok(prettyStates + [entry.value]);
        prettyStates := prettyStates + [entry.value];
      } else {
        assert PrettyList(items[..i + 1]) == Ok(prettyStates);
      }
      i := i + 1;
    }
    assert items[..|items|] == items;
    r := Ok(Shape(prettyStates));
  }

  // ---------------------------------------------------------------------
  // prettify_history
  // ---------------------------------------------------------------------

  /** What get_entity_history hands over: an error or notice string, or the decoded events. */
  type History = Value

  const NoEvents := "No valid history events to display."

  const ToggleDomains: seq<string> := ["light", "switch", "fan", "input_boolean"]

  /** The description of one state change, chosen by domain and device class. */
  function Describe(domain: string, deviceClass: Value, state: Value): (d: string)
    ensures domain in ToggleDomains ==> d == "was turned " + PyStr(state)
    ensures domain == "lock" ==> d == (if state == Str("unlocked") then "was unlocked" else "was locked")
    ensures domain == "cover" ==> d == "was " + PyStr(state)
    ensures domain == "binary_sensor" && deviceClass in [Str("door"), Str("window"), Str("garage_door")] ==>
              d == (if state == Str("on") then "was opened" else "was closed")
    ensures domain == "binary_sensor" && deviceClass in [Str("motion"), Str("occupancy")] ==>
              d == (if state == Str("on") then "motion was detected" else "motion cleared")
    ensures domain == "binary_sensor" && deviceClass == Str("lock") ==>
              d == (if state == Str("on") then "was unlocked" else "was locked")
    ensures domain == "binary_sensor" &&
            deviceClass !in [Str("door"), Str("window"), Str("garage_door"), Str("motion"), Str("occupancy"), Str("lock")] ==>
              d == "turned " + PyStr(state)
    ensures domain !in ToggleDomains && domain !in {"binary_sensor", "lock", "cover"} ==>
              d == "changed to '" + PyStr(state) + "'"
  {
    var on := state == Str("on");
    if domain in ToggleDomains then "was turned " + PyStr(state)
    else if domain == "binary_sensor" then
      if deviceClass in [Str("door"), Str("window"), Str("garage_door")] then
        (if on then "was opened" else "was closed")
      else if deviceClass in [Str("motion"), Str("occupancy")] then
        (if on then "motion was detected" else "motion cleared")
      else if deviceClass == Str("lock") then
        (if on then "was unlocked" else "was locked")
      else "turned " + PyStr(state)
    else if domain == "lock" then (if state == Str("unlocked") then "was unlocked" else "was locked")
    else if domain == "cover" then "was " + PyStr(state)
    else "changed to '" + PyStr(state) + "'"
  }

  function HistoryLine(timestamp: string, description: string): string {
    "- At " + timestamp + ", it " + description + ".\n"
  }

  /** The line for one event; None when it has no last_changed or its time cannot be read. */
  function EventLine(event: Value, domain: string, deviceClass: Value, stamp: Value -> Option<string>): Result<Option<string>> {
    if !event.Obj? then Err("'" + TypeName(event) + "' object has no attribute 'get'")
    else
      var lastChanged := Get(event, "last_changed");
      if !Truthy(lastChanged) then Ok(None)
      else match stamp(lastChanged)
        case None => Ok(None)
        case Some(ts) => Ok(Some(HistoryLine(ts, Describe(domain, deviceClass, Get(event, "state")))))
  }

  /** The text the loop builds from the events in order; the first error stops. */
  function HistoryText(events: seq<Value>, domain: string, deviceClass: Value, stamp: Value -> Option<string>): Result<string>
    decreases |events|
  {
    if events == [] then Ok("")
    else
      match HistoryText(events[..|events| - 1], domain, deviceClass, stamp)
      case Err(e) => Err(e)
      case Ok(text) =>
        match EventLine(events[|events| - 1], domain, deviceClass, stamp)
        case Err(e) => Err(e)
        case Ok(line) => Ok(if line.Some? then text + line.value else text)
  }

  /** The events `for event in history_data` visits: a list's items or a dict's keys. */
  function Events(history: Value): Result<seq<Value>> {
    match history
    case Arr(items) => Ok(items)
    case Obj(fields) => Ok(seq(|fields|, i requires 0 <= i < |fields| => Str(fields[i].0)))
    case _ => Err("'" + TypeName(history) + "' object is not iterable")
  }

  /** The device class of an entity, from its attributes in the snapshot. */
  function DeviceClass(states: seq<State>, entityId: string): Value {
    match FindState(states, entityId)
    case None => Null
    case Some(s) => match Lookup(s.attributes, "device_class") case Some(v) => v case None => Null
  }

  /**
   * prettify_history. A string is returned unchanged; otherwise one line per
   * event with a readable time. The stamp parameter stands for the ISO parse, the
   * time-zone conversion and the strftime, None where they raise.
   */
  function PrettyHistory(history: History, entityId: string, states: seq<State>, stamp: Value -> Option<string>): (r: Result<string>)
    ensures history.Str? ==> r == Ok(history.s)
    ensures !history.Str? && Events(history).Err? ==> r == Err(Events(history).error)
    ensures !history.Str? && Events(history).Ok? ==>
              var text := HistoryText(Events(history).value, BeforeFirst(entityId, '.'), DeviceClass(states, entityId), stamp);
              && (text.Err? ==> r == text)
              && (text.Ok? && text.value != "" ==> r == text)
              && (text.Ok? && text.value == "" ==> r == Ok(NoEvents))
    ensures !history.Str? && r.Ok? ==> r.value != ""
  {
    if history.Str? then Ok(history.s)
    else match Events(history)
      case Err(e) => Err(e)
      case Ok(events) =>
        match HistoryText(events, BeforeFirst(entityId, '.'), DeviceClass(states, entityId), stamp)
        case Err(e) => Err(e)
        case Ok(text) => Ok(if text != "" then text else NoEvents)
  }

  /** Events without a usable last_changed add nothing; each other event adds exactly its line. */
  lemma HistoryAppend(events: seq<Value>, event: Value, domain: string, deviceClass: Value, stamp: Value -> Option<string>)
    requires HistoryText(events, domain, deviceClass, stamp).Ok?
    requires event.Obj?
    ensures var before := HistoryText(events, domain, deviceClass, stamp).value;
            var after := HistoryText(events + [event], domain, deviceClass, stamp);
            var lc := Get(event, "last_changed");
            && (!Truthy(lc) || stamp(lc).None? ==> after == Ok(before))
            && (Truthy(lc) && stamp(lc).Some? ==>
                  after == Ok(before + HistoryLine(stamp(lc).value, Describe(domain, deviceClass, Get(event, "state")))))
  {
    assert (events + [event])[..|events|] == events;
  }

  /** With no readable event the fixed notice is returned. */
  lemma NoReadableEvents(events: seq<Value>, entityId: string, states: seq<State>, stamp: Value -> Option<string>)
    requires forall k :: 0 <= k < |events| ==>
               events[k].Obj? && (!Truthy(Get(events[k], "last_changed")) || stamp(Get(events[k], "last_changed")).None?)
    ensures PrettyHistory(Arr(events), entityId, states, stamp) == Ok(NoEvents)
  {
    NoReadableEventsText(events, BeforeFirst(entityId, '.'), DeviceClass(states, entityId), stamp);
  }

  lemma {:induction false} NoReadableEventsText(events: seq<Value>, domain: string, deviceClass: Value, stamp: Value -> Option<string>)
    requires forall k :: 0 <= k < |events| ==>
               events[k].Obj? && (!Truthy(Get(events[k], "last_changed")) || stamp(Get(events[k], "last_changed")).None?)
    ensures HistoryText(events, domain, deviceClass, stamp) == Ok("")
    decreases |events|
  {
    if events != [] {
      var n := |events| - 1;
      assert forall k :: 0 <= k < n ==> events[..n][k] == events[k];
      NoReadableEventsText(events[..n], domain, deviceClass, stamp);
    }
  }

  lemma {:induction false} HistoryTextErrSticks(events: seq<Value>, n: nat, domain: string, deviceClass: Value, stamp: Value -> Option<string>)
    requires n <= |events|
    requires HistoryText(events[..n], domain, deviceClass, stamp).Err?
    ensures HistoryText(events, domain, deviceClass, stamp) == HistoryText(events[..n], domain, deviceClass, stamp)
    decreases |events| - n
  {
    if n < |events| {
      assert events[..|events| - 1][..n] == events[..n];
      HistoryTextErrSticks(events[..|events| - 1], n, domain, deviceClass, stamp);
    } else {
      assert events[..n] == events;
    }
  }

  /** prettify_history as the source runs it: a loop that grows the text with +=. */
  method PrettifyHistory(historyData: History, entityId: string, allStates: seq<State>, stamp: Value -> Option<string>)
    returns (r: Result<string>)
    ensures r == PrettyHistory(historyData, entityId, allStates, stamp)
  {
    if historyData.Str? {
      return Ok(historyData.s);
    }
    var events := Events(historyData);
    if events.Err? {
      return Err(events.error);
    }
    var deviceClass := DeviceClass(allStates, entityId);
    var domain := BeforeFirst(entityId, '.');
    var prettyString := "";
    var i := 0;
    while i < |events.value|
      invariant 0 <= i <= |events.value|
      invariant HistoryText(events.value[..i], domain, deviceClass, stamp) == Ok(prettyString)
    {
      var event := events.value[i];
      assert events.value[..i + 1][..i] == events.value[..i];
      var line := EventLine(event, domain, deviceClass, stamp);
      if line.Err? {
        HistoryTextErrSticks(events.value, i + 1, domain, deviceClass, stamp);
        return Err(line.error);
      }
      if line.value.Some? {
        prettyString := prettyString + line.value.value;
      }
      i := i + 1;
    }
    assert events.value[..|events.value|] == events.value;
    r := Ok(if prettyString != "" then prettyString else NoEvents);
  }
}
