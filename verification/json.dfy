/** The JSON values that cross the relay's boundaries, and the shared field checks of
    packages/contracts/src/validation.ts and provider-neutral.ts. */
module Json {
  datatype Json =
    | Null
    | Bool(b: bool)
    | Number(n: real)
    | Str(s: string)
    | Arr(items: seq<Json>)
    | Obj(fields: map<string, Json>)

  /** Number.MAX_SAFE_INTEGER. */
  const MAX_SAFE_INTEGER := 0x1F_FFFF_FFFF_FFFF

  predicate HasExactKeys(j: Json, keys: set<string>)
    requires j.Obj?
  {
    j.fields.Keys == keys
  }

  predicate IsExactRecord(j: Json, keys: set<string>) {
    j.Obj? && HasExactKeys(j, keys)
  }

  predicate IsNonemptyString(j: Json) {
    j.Str? && j.s != ""
  }

  predicate IsSafeInteger(j: Json) {
    && j.Number?
    && j.n == j.n.Floor as real
    && -MAX_SAFE_INTEGER <= j.n.Floor <= MAX_SAFE_INTEGER
  }

  /** A non-negative safe integer: the contracts' notion of a generation. */
  predicate IsGeneration(j: Json) {
    IsSafeInteger(j) && 0 <= j.n.Floor
  }

  predicate HasNonemptyStrings(j: Json, keys: set<string>)
    requires j.Obj? && keys <= j.fields.Keys
  {
    forall k | k in keys :: IsNonemptyString(j.fields[k])
  }

  function AsciiLower(s: string): string {
    seq(|s|, i requires 0 <= i < |s| =>
      if 'A' <= s[i] <= 'Z' then (s[i] as int + 32) as char else s[i])
  }

  /** Keys that name a provider's native traffic: an optional "raw", then "provider",
      then one of four nouns, in any letter case. */
  predicate IsProviderNativeKey(key: string) {
    AsciiLower(key) in {
      "providermethod", "providerevent", "providerpayload", "providerresponse",
      "rawprovidermethod", "rawproviderevent", "rawproviderpayload", "rawproviderresponse"
    }
  }

  predicate IsProviderNeutral(j: Json) {
    match j
    case Arr(items) => forall i | 0 <= i < |items| :: IsProviderNeutral(items[i])
    case Obj(fields) => forall k | k in fields :: !IsProviderNativeKey(k) && IsProviderNeutral(fields[k])
    case _ => true
  }
}
