/** The HTTP client setup of contextos/api/api.ts: the module-level Basic token
    and the request interceptor that adds the `Authorization` header. */
module Api {
  import opened Wrappers
  import opened Text

  const BaseUrl := "http://localhost:9090"
  const PrefixoBasic := "Basic "
  const RotaLogin := "api/auth/login"
  const Authorization := "Authorization"

  /** The header value: a token already carrying "Basic " is used as it is,
      any other gets the prefix. */
  function ComPrefixo(token: string): (r: string)
    ensures StartsWith(r, PrefixoBasic)
    ensures StartsWith(token, PrefixoBasic) ==> r == token
    ensures !StartsWith(token, PrefixoBasic) ==> r == PrefixoBasic + token
  {
    if StartsWith(token, PrefixoBasic) then token else PrefixoBasic + token
  }

  /** Prefixing twice is prefixing once. */
  lemma ComPrefixoIdempotente(token: string)
    ensures ComPrefixo(ComPrefixo(token)) == ComPrefixo(token)
  {
  }

  /** The header the interceptor writes, or `None` when it leaves the headers
      alone: no token (or an empty one), or a login URL. A request without a
      URL gets the header, as `undefined?.includes` is falsy. */
  function Autorizacao(token: Option<string>, url: Option<string>): (r: Option<string>)
    ensures r.Some? <==> token.Some? && token.value != "" && !(url.Some? && Contains(url.value, RotaLogin))
    ensures r.Some? ==> StartsWith(r.value, PrefixoBasic) && r.value == ComPrefixo(token.value)
  {
    if token.Some? && token.value != "" && !(url.Some? && Contains(url.value, RotaLogin)) then
      Some(ComPrefixo(token.value))
    else None
  }

  /** The headers after the interceptor ran. */
  function HeadersApos(headers: map<string, string>, token: Option<string>, url: Option<string>): (h: map<string, string>)
    ensures forall k :: k != Authorization ==> (k in h <==> k in headers) && (k in headers ==> h[k] == headers[k])
    ensures Autorizacao(token, url).None? ==> h == headers
    ensures Autorizacao(token, url).Some? ==> Authorization in h && h[Authorization] == Autorizacao(token, url).value
  {
    var a := Autorizacao(token, url);
    if a.Some? then headers[Authorization := a.value] else headers
  }

  /** Running the interceptor twice on the same request changes nothing more. */
  lemma InterceptorIdempotente(headers: map<string, string>, token: Option<string>, url: Option<string>)
    ensures HeadersApos(HeadersApos(headers, token, url), token, url) == HeadersApos(headers, token, url)
  {
  }

  /** The mutable part of an axios request config the interceptor touches. */
  class RequestConfig {
    var url: Option<string>
    var headers: map<string, string>

    constructor (url: Option<string>, headers: map<string, string>)
      ensures this.url == url && this.headers == headers
    {
      this.url := url;
      this.headers := headers;
    }
  }

  class ModuloApi {
    var currentAuthToken: Option<string>

    constructor ()
      ensures currentAuthToken == None
    {
      currentAuthToken := None;
    }

    /** `setAuthToken(token)`: replaces the token; `null` turns the header off. */
    method SetAuthToken(token: Option<string>)
      modifies this
      ensures currentAuthToken == token
    {
      currentAuthToken := token;
    }

    /** The request interceptor: returns the same config object, whose
        `Authorization` header it may have set. */
    method Interceptar(config: RequestConfig) returns (r: RequestConfig)
      modifies config
      ensures r == config && config.url == old(config.url)
      ensures config.headers == HeadersApos(old(config.headers), currentAuthToken, config.url)
    {
      if currentAuthToken.Some? && currentAuthToken.value != ""
         && !(config.url.Some? && Contains(config.url.value, RotaLogin)) {
        config.headers := config.headers[Authorization := ComPrefixo(currentAuthToken.value)];
      }
      return config;
    }
  }
}
