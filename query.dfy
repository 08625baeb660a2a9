/**
 * The route's query parameters and the seeding of the argument map from
 * `args.<name>` keys.
 */
module Query {
  import opened Options

  /** `router.query`: key/value pairs; each value is a single string. */
  type RouteQuery = seq<(string, string)>

  /** `router.query[key]`. */
  function QueryGet(q: RouteQuery, key: string): (r: Option<string>)
    ensures r.Some? <==> exists j :: 0 <= j < |q| && q[j].0 == key
    ensures r.Some? ==> exists j :: 0 <= j < |q| && q[j] == (key, r.value)
  {
    if q == [] then None
    else if q[0].0 == key then Some(q[0].1)
    else QueryGet(q[1..], key)
  }

  /** `router.query[key]` when it is truthy, i.e. present and non-empty. */
  function Param(q: RouteQuery, key: string): (r: Option<string>)
    ensures r.Some? ==> r.value != "" && QueryGet(q, key) == r
    ensures r.None? ==> QueryGet(q, key).None? || QueryGet(q, key) == Some("")
  {
    match QueryGet(q, key)
    case Some(v) => if v != "" then Some(v) else None
    case None => None
  }

  const ArgsPrefix := "args."

  /** `key.startsWith('args.')` with a non-empty `key.substr(5)`. */
  predicate IsArgKey(key: string) {
    |key| > |ArgsPrefix| && key[..|ArgsPrefix|] == ArgsPrefix
  }

  /** One iteration of the seeding loop: `draft[key.substr(5)] = router.query[key]`. */
  function SeedStep(args: map<string, string>, q: RouteQuery, key: string): map<string, string> {
    if IsArgKey(key) && QueryGet(q, key).Some? then args[key[|ArgsPrefix|..] := QueryGet(q, key).value]
    else args
  }

  /** The argument map after the loop has visited the first `n` query keys. */
  function SeededUpTo(args: map<string, string>, q: RouteQuery, n: nat): map<string, string>
    requires n <= |q|
  {
    if n == 0 then args else SeedStep(SeededUpTo(args, q, n - 1), q, q[n - 1].0)
  }

  /** Some of the first `n` query keys is `key`. */
  predicate KeyAmong(q: RouteQuery, n: nat, key: string)
    requires n <= |q|
  {
    exists j :: 0 <= j < n && q[j].0 == key
  }

  /** `"args." + name` is an argument key exactly when `name` is non-empty, and it names `name`. */
  lemma ArgKeyOf(name: string, key: string)
    ensures (IsArgKey(key) && key[|ArgsPrefix|..] == name) <==> (name != "" && key == ArgsPrefix + name)
  {
    if name != "" && key == ArgsPrefix + name {
      assert key[..|ArgsPrefix|] == ArgsPrefix;
      assert key[|ArgsPrefix|..] == name;
    }
    if IsArgKey(key) && key[|ArgsPrefix|..] == name {
      assert key == key[..|ArgsPrefix|] + key[|ArgsPrefix|..];
    }
  }

  /**
   * After seeding, argument `name` holds the query value of `args.<name>`
   * when that key is among the visited ones and `name` is non-empty; every
   * other argument is left as it was.
   */
  lemma {:induction false} SeededAt(args: map<string, string>, q: RouteQuery, n: nat, name: string)
    requires n <= |q|
    ensures var r := SeededUpTo(args, q, n);
      && (name in r <==> name in args || (name != "" && KeyAmong(q, n, ArgsPrefix + name)))
      && (name != "" && KeyAmong(q, n, ArgsPrefix + name) ==> r[name] == QueryGet(q, ArgsPrefix + name).value)
      && (!(name != "" && KeyAmong(q, n, ArgsPrefix + name)) && name in args ==> r[name] == args[name])
  {
    if n > 0 {
      SeededAt(args, q, n - 1, name);
      var key := q[n - 1].0;
      ArgKeyOf(name, key);
      assert QueryGet(q, key).Some?;
      assert KeyAmong(q, n, ArgsPrefix + name) <==>
             KeyAmong(q, n - 1, ArgsPrefix + name) || key == ArgsPrefix + name;
    }
  }

  /** Seeding from the whole query. */
  lemma SeededFromQuery(args: map<string, string>, q: RouteQuery, name: string)
    ensures var r := SeededUpTo(args, q, |q|);
      && (name in r <==> name in args || (name != "" && QueryGet(q, ArgsPrefix + name).Some?))
      && (name != "" && QueryGet(q, ArgsPrefix + name).Some? ==> r[name] == QueryGet(q, ArgsPrefix + name).value)
      && (!(name != "" && QueryGet(q, ArgsPrefix + name).Some?) && name in args ==> r[name] == args[name])
  {
    SeededAt(args, q, |q|, name);
  }
}
