/**
 * The static chain registry and the lookups the page runs on it with
 * `chains.find`, and the hexadecimal chain id sent to an injected wallet.
 */
module Chains {
  import opened Options
  import opened Numerals

  datatype Currency = Currency(name: string, symbol: string, decimals: nat)

  /** A registry entry; an entry without RPC URLs has an empty `rpc`. */
  datatype Chain = Chain(chainId: nat, name: string, nativeCurrency: Currency, rpc: seq<string>)

  /** `chains.find(chain => chain.chainId == id)`. */
  function FindById(registry: seq<Chain>, id: nat): (r: Option<Chain>)
    ensures r.Some? ==> r.value in registry && r.value.chainId == id
    ensures r.None? <==> forall c | c in registry :: c.chainId != id
    // the first entry with that id
    ensures r.Some? ==> exists j :: 0 <= j < |registry| && registry[j] == r.value &&
                                    forall k :: 0 <= k < j ==> registry[k].chainId != id
  {
    if registry == [] then None
    else if registry[0].chainId == id then Some(registry[0])
    else FindById(registry[1..], id)
  }

  /** `chains.find(chain => String(chain.chainId) == key)`: `key` as received, e.g. a route parameter. */
  function FindByKey(registry: seq<Chain>, key: string): (r: Option<Chain>)
    ensures r.Some? ==> r.value in registry && Decimal(r.value.chainId) == key
    ensures r.None? <==> forall c | c in registry :: Decimal(c.chainId) != key
    // the first entry whose numeral is the key
    ensures r.Some? ==> exists j :: 0 <= j < |registry| && registry[j] == r.value &&
                                    forall k :: 0 <= k < j ==> Decimal(registry[k].chainId) != key
  {
    if registry == [] then None
    else if Decimal(registry[0].chainId) == key then Some(registry[0])
    else FindByKey(registry[1..], key)
  }

  /** A key that is not the canonical decimal numeral of an id (say "01" or " 1") finds nothing. */
  lemma KeyMustBeCanonical(registry: seq<Chain>, key: string)
    requires FindByKey(registry, key).Some?
    ensures Canonical(key, 10)
  {
    ToBaseRoundTrip(FindByKey(registry, key).value.chainId, 10);
  }

  /** Looking up the decimal numeral of an id finds the same entry as looking up the id. */
  lemma {:induction false} FindByDecimalKey(registry: seq<Chain>, id: nat)
    ensures FindByKey(registry, Decimal(id)) == FindById(registry, id)
  {
    if registry != [] {
      if Decimal(registry[0].chainId) == Decimal(id) {
        ToBaseInjective(registry[0].chainId, id, 10);
      }
      FindByDecimalKey(registry[1..], id);
    }
  }

  /** `'0x' + Number(chainId).toString(16)`, the id carried by EIP-3326 and EIP-3085 requests. */
  function ChainIdHex(id: nat): (h: string)
    ensures |h| >= 3 && h[..2] == "0x"
    ensures Canonical(h[2..], 16) && FromBase(h[2..], 16) == id
  {
    ToBaseRoundTrip(id, 16);
    var digits := ToBase(id, 16);
    assert ("0x" + digits)[2..] == digits;
    "0x" + digits
  }
}
