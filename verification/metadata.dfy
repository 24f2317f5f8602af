/** gRPC call metadata: each key maps to the list of values sent under it. */
module Metadata {

  type MD = map<string, seq<string>>

  /** md.Get(key): the values under `key`, none when it is absent. */
  function Values(md: MD, key: string): (vs: seq<string>)
    ensures key !in md ==> vs == []
    ensures key in md ==> vs == md[key]
  {
    if key in md then md[key] else []
  }

  /** getMetadata: the first value under `key`, or "" when there is none. */
  function First(md: MD, key: string): (v: string)
    ensures Values(md, key) == [] ==> v == ""
    ensures Values(md, key) != [] ==> v == Values(md, key)[0]
  {
    var vs := Values(md, key);
    if |vs| == 0 then "" else vs[0]
  }

  /** Some value under `key` equals `value`. */
  predicate HasValue(md: MD, key: string, value: string)
  {
    value in Values(md, key)
  }

  /** A value other than "" read by First was really sent under the key. */
  lemma FirstIsSent(md: MD, key: string)
    requires First(md, key) != ""
    ensures HasValue(md, key, First(md, key))
    ensures key in md && md[key][0] == First(md, key)
  {
  }
}

/** The metadata keys and values that switch mocking on and select a case. */
module Settings {

  /** Settings of the in-memory engine (its MatchConf). */
  datatype MatchConf = MatchConf(enableKey: string, enableValue: string, caseKey: string, customCaseKey: string)

  const DefaultMatchConf := MatchConf("mock", "yes", "case_name", "custom_case")

  /** Settings of the store-backed engine and proxy. */
  datatype ProxyConf = ProxyConf(
    enableKey: string,
    enableValue: string,
    disableValue: string,
    caseKey: string,
    customCaseKey: string,
    testedAppNameKey: string)

  const DefaultProxyConf := ProxyConf("mock", "yes", "no", "case", "custom_case", "tested_app_name")
}
