/**
 * What every MWS service class shares (Model/Service/MCFAbstract.php):
 * the service URL and client class it talks to, and the request base
 * that carries the seller id.
 */
module McfAbstract {
  import opened Config

  const ServiceVersion := "2017-01-01"

  /** The endpoint (default scope), then the service path, then the API version. */
  function ServiceUrl(c: ScopeConfig, serviceName: string): (url: string)
    ensures |url| == |GetEndpoint(c, 0)| + |serviceName| + |ServiceVersion|
    ensures url[..|GetEndpoint(c, 0)|] == GetEndpoint(c, 0)
    ensures url[|GetEndpoint(c, 0)|..|GetEndpoint(c, 0)| + |serviceName|] == serviceName
    ensures url[|url| - |ServiceVersion|..] == ServiceVersion
  {
    GetEndpoint(c, 0) + serviceName + ServiceVersion
  }

  /** The mock client class in debug mode, the real one otherwise. */
  function ServiceClass(c: ScopeConfig, serviceClass: string): (cls: string)
    ensures |cls| > |serviceClass| && cls[..|serviceClass|] == serviceClass
    ensures IsDebug(c) ==> cls[|serviceClass|..] == "_Mock"
    ensures !IsDebug(c) ==> cls[|serviceClass|..] == "_Client"
  {
    serviceClass + (if IsDebug(c) then "_Mock" else "_Client")
  }

  /**
   * `array_merge(['SellerId' => sellerId(store)], params)`: the seller id of
   * the store, unless the caller supplies its own, plus every parameter.
   */
  function GetRequest(c: ScopeConfig, params: map<string, string>, storeId: nat): (r: map<string, string>)
    ensures r.Keys == params.Keys + {"SellerId"}
    ensures forall k :: k in params ==> r[k] == params[k]
    ensures "SellerId" !in params ==> r["SellerId"] == SellerId(c, storeId)
  {
    map["SellerId" := SellerId(c, storeId)] + params
  }
}
