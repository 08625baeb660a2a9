/**
 * The ABI normaliser: which entries of a loaded artifact are callable
 * functions, and which `networks` entry supplies the address hint.
 */
module Abi {
  import opened Options
  import opened JsValues

  /** `entry['type'] === 'function'`. */
  predicate IsFunctionEntry(entry: JsValue) {
    Prop(entry, "type") == Normal(Str("function"))
  }

  predicate HasNullish(xs: seq<JsValue>) {
    exists i :: 0 <= i < |xs| && IsNullish(xs[i])
  }

  /** The function entries of `xs`, in declaration order. */
  function FunctionsIn(xs: seq<JsValue>): seq<JsValue> {
    if xs == [] then []
    else (if IsFunctionEntry(xs[0]) then [xs[0]] else []) + FunctionsIn(xs[1..])
  }

  /** Filtering distributes over concatenation, so declaration order is kept. */
  lemma {:induction false} FunctionsInAppend(xs: seq<JsValue>, ys: seq<JsValue>)
    ensures FunctionsIn(xs + ys) == FunctionsIn(xs) + FunctionsIn(ys)
  {
    if xs != [] {
      assert (xs + ys)[1..] == xs[1..] + ys;
      FunctionsInAppend(xs[1..], ys);
    } else {
      assert xs + ys == ys;
    }
  }

  /** An entry is kept exactly when it is in the input and has type "function". */
  lemma {:induction false} FunctionsInMembers(xs: seq<JsValue>, e: JsValue)
    ensures e in FunctionsIn(xs) <==> e in xs && IsFunctionEntry(e)
  {
    if xs != [] {
      FunctionsInMembers(xs[1..], e);
      assert xs == [xs[0]] + xs[1..];
    }
  }

  /** Nothing is dropped but non-functions: as many entries as there are function entries. */
  lemma {:induction false} FunctionsInCount(xs: seq<JsValue>, e: JsValue)
    ensures multiset(FunctionsIn(xs))[e] == if IsFunctionEntry(e) then multiset(xs)[e] else 0
  {
    if xs != [] {
      FunctionsInCount(xs[1..], e);
      assert xs == [xs[0]] + xs[1..];
    }
  }

  /**
   * The loop that pushes every function entry into `newFunctions`. Reading
   * `type` of a `null` entry throws, and the loop never completes then.
   */
  method CollectFunctions(entries: seq<JsValue>) returns (c: Completion<seq<JsValue>>)
    ensures HasNullish(entries) ==> c == Throw(TypeError)
    ensures !HasNullish(entries) ==> c == Normal(FunctionsIn(entries))
  {
    var newFunctions := [];
    var i := 0;
    while i < |entries|
      invariant 0 <= i <= |entries|
      invariant forall k :: 0 <= k < i ==> !IsNullish(entries[k])
      invariant newFunctions == FunctionsIn(entries[..i])
    {
      var entry := entries[i];
      var kind := Prop(entry, "type");
      if kind.Throw? {
        return Throw(kind.exception);
      }
      if kind.value == Str("function") {
        newFunctions := newFunctions + [entry];
      }
      assert FunctionsIn([entry]) == if IsFunctionEntry(entry) then [entry] else [];
      FunctionsInAppend(entries[..i], [entry]);
      assert entries[..i + 1] == entries[..i] + [entry];
      i := i + 1;
    }
    assert entries[..i] == entries;
    return Normal(newFunctions);
  }

  /** The callable functions and the stored ABI value. */
  datatype Normalised = Normalised(functions: seq<JsValue>, abi: JsValue)

  const Empty := Normalised([], Arr([]))

  /** The functions of an iterable ABI value, stored as it is. */
  function FromIterable(abi: JsValue): (r: Completion<Normalised>)
  {
    match ForOfValues(abi)
    case Throw(t) => Throw(t)
    case Normal(xs) => if HasNullish(xs) then Throw(TypeError) else Normal(Normalised(FunctionsIn(xs), abi))
  }

  /** `json['abi']` of a truthy value: never throws. */
  function AbiField(json: JsValue): JsValue
    requires Truthy(json)
  {
    Prop(json, "abi").value
  }

  /**
   * The shape test of the normaliser, run on a truthy loaded value: an
   * artifact with an `abi` field, a value whose `length` is positive and
   * whose element 0 has a truthy `type`, or anything else.
   */
  function Normalise(json: JsValue): (r: Completion<Normalised>)
    requires Truthy(json)
    // an artifact: exactly its function entries, in order, and the `abi` stored unchanged
    ensures AbiField(json).Arr? && !HasNullish(AbiField(json).elems) ==>
              r == Normal(Normalised(FunctionsIn(AbiField(json).elems), AbiField(json)))
    // a bare ABI array whose first entry has a type: filtered the same way, the array stored
    ensures json.Arr? && |json.elems| > 0 && !HasNullish(json.elems) && Truthy(Prop(json.elems[0], "type").value) ==>
              r == Normal(Normalised(FunctionsIn(json.elems), json))
    // an array with no entries, or whose first entry has no type: nothing loaded, not an error
    ensures json.Arr? && (json.elems == [] || (!IsNullish(json.elems[0]) && !Truthy(Prop(json.elems[0], "type").value))) ==>
              r == Normal(Empty)
    // a primitive loaded value: nothing loaded, not an error
    ensures json.Bool? || json.Num? || json.Str? ==> r == Normal(Empty)
    // an object with no `abi` and no positive `length` (the initial `{}`, `networks` alone): nothing loaded
    ensures json.Obj? && !Truthy(AbiField(json)) && !IsPositive(Prop(json, "length").value) ==> r == Normal(Empty)
    // a `null` entry in the artifact's `abi` makes the loop throw
    ensures AbiField(json).Arr? && HasNullish(AbiField(json).elems) ==> r == Throw(TypeError)
    // whatever is kept is a function entry
    ensures r.Normal? ==> forall f | f in r.value.functions :: IsFunctionEntry(f)
    ensures r.Throw? ==> r.exception == TypeError
  {
    var abi := AbiField(json);
    var result :=
      if Truthy(abi) then FromIterable(abi)
      else if (json.Arr? || json.Obj?) && IsPositive(Prop(json, "length").value) then
        match Prop(Prop(json, "0").value, "type")
        case Throw(t) => Throw(t)
        case Normal(kind) => if Truthy(kind) then FromIterable(json) else Normal(Empty)
      else Normal(Empty);
    assert json.Arr? && |json.elems| > 0 ==> Prop(json, "0") == Normal(json.elems[0]) by {
      if json.Arr? && |json.elems| > 0 {
        ArrayKeyReadsElement(json.elems, 0);
      }
    }
    assert result.Normal? ==> forall f | f in result.value.functions :: IsFunctionEntry(f) by {
      if result.Normal? && result.value.functions != [] {
        forall f | f in result.value.functions ensures IsFunctionEntry(f) {
          var src := if Truthy(abi) then abi else json;
          FunctionsInMembers(ForOfValues(src).value, f);
        }
      }
    }
    result
  }

  /** `f.name === name`. */
  predicate HasName(f: JsValue, name: string) {
    Prop(f, "name") == Normal(Str(name))
  }

  /** `functions.find(f => f.name === name)`. */
  function FindFunction(functions: seq<JsValue>, name: string): (r: Option<JsValue>)
    ensures r.Some? ==> r.value in functions && HasName(r.value, name)
    ensures r.None? <==> forall f | f in functions :: !HasName(f, name)
    // of several functions with that name (overloads), the first is chosen
    ensures r.Some? ==> exists j :: 0 <= j < |functions| && functions[j] == r.value &&
                                    forall k :: 0 <= k < j ==> !HasName(functions[k], name)
  {
    if functions == [] then None
    else if HasName(functions[0], name) then Some(functions[0])
    else FindFunction(functions[1..], name)
  }

  /** `json['networks'][key]['address']`. */
  function AddressAt(networks: JsValue, key: string): Completion<JsValue>
    requires !IsNullish(networks)
  {
    Prop(Prop(networks, key).value, "address")
  }

  /** The entry at `key` was read and has no truthy `address`. */
  predicate Unaddressed(networks: JsValue, key: string)
    requires !IsNullish(networks)
  {
    AddressAt(networks, key).Normal? && !Truthy(AddressAt(networks, key).value)
  }

  /** Reading the entry at `key` throws: the entry is `null` or `undefined`. */
  predicate Unreadable(networks: JsValue, key: string)
    requires !IsNullish(networks)
  {
    AddressAt(networks, key).Throw?
  }

  /**
   * The first of `keys` whose entry has a truthy `address`, with that
   * address; an entry that is `null` throws when it is reached.
   */
  function FirstHint(networks: JsValue, keys: seq<string>): (r: Completion<Option<(string, JsValue)>>)
    requires !IsNullish(networks)
    ensures r.Normal? && r.value.Some? ==>
              && r.value.value.0 in keys
              && AddressAt(networks, r.value.value.0) == Normal(r.value.value.1)
              && Truthy(r.value.value.1)
    ensures r.Normal? && r.value.None? ==> forall k | k in keys :: Unaddressed(networks, k)
    ensures r.Throw? ==> r.exception == TypeError && exists k | k in keys :: Unreadable(networks, k)
    // the key chosen is the first with an address: every earlier entry was read without one
    ensures r.Normal? && r.value.Some? ==>
              exists j :: 0 <= j < |keys| && keys[j] == r.value.value.0 &&
                forall k :: 0 <= k < j ==> Unaddressed(networks, keys[k])
    // a throw comes from the first entry that could not be read, before any entry with an address
    ensures r.Throw? ==>
              exists j :: 0 <= j < |keys| && Unreadable(networks, keys[j]) &&
                forall k :: 0 <= k < j ==> Unaddressed(networks, keys[k])
    ensures keys != [] && AddressAt(networks, keys[0]).Normal? && Truthy(AddressAt(networks, keys[0]).value) ==>
              r == Normal(Some((keys[0], AddressAt(networks, keys[0]).value)))
    decreases |keys|
  {
    if keys == [] then Normal(None)
    else
      match AddressAt(networks, keys[0])
      case Throw(t) =>
        assert Unreadable(networks, keys[0]);
        Throw(t)
      case Normal(a) =>
        if Truthy(a) then Normal(Some((keys[0], a)))
        else
          var rest := FirstHint(networks, keys[1..]);
          // an index into the tail is one more than an index into `keys`
          assert forall k :: 0 <= k < |keys| - 1 ==> keys[1..][k] == keys[k + 1];
          rest
  }

  /** The `for...in` loop over `networks` that stops (`break`) at the first entry with an address. */
  method FindHint(networks: JsValue) returns (c: Completion<Option<(string, JsValue)>>)
    requires !IsNullish(networks)
    ensures c == FirstHint(networks, ForInKeys(networks))
  {
    var keys := ForInKeys(networks);
    var i := 0;
    c := Normal(None);
    while i < |keys|
      invariant 0 <= i <= |keys|
      invariant FirstHint(networks, keys) == FirstHint(networks, keys[i..])
    {
      var entry := Prop(networks, keys[i]).value;
      var address := Prop(entry, "address");
      if address.Throw? {
        c := Throw(address.exception);
        break;
      }
      if Truthy(address.value) {
        c := Normal(Some((keys[i], address.value)));
        break;
      }
      assert keys[i..][1..] == keys[i + 1..];
      i := i + 1;
    }
  }
}
