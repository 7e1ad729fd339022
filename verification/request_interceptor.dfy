/**
 * The request interceptor of the shared HTTP client (src/services/axios.ts):
 * it attaches the stored access token as a bearer credential and fixes the
 * content type by body kind.
 */
module RequestInterceptor {
  import Storage

  /** `config.data`: no body, a plain JSON-serialisable value, or a `FormData`. */
  datatype Body = NoBody | JsonBody | FormDataBody

  datatype Config = Config(url: string, headers: map<string, string>, body: Body)

  const AuthorizationHeader := "Authorization"
  const ContentTypeHeader := "Content-Type"
  const JsonContentType := "application/json"

  /** The `Authorization` value for an access token. */
  function Bearer(token: string): string {
    "Bearer " + token
  }

  /** Header `k` is the same (present with the same value, or absent) in both maps. */
  predicate SameHeader(a: map<string, string>, b: map<string, string>, k: string) {
    (k in a <==> k in b) && (k in a ==> a[k] == b[k])
  }

  /** The request interceptor applied to `cfg` with the browser storage in `store`. */
  function Prepare(store: Storage.Store, cfg: Config): (r: Config)
    ensures r.url == cfg.url && r.body == cfg.body
    ensures Storage.HasItem(store, Storage.AuthTokenKey) ==>
      AuthorizationHeader in r.headers && r.headers[AuthorizationHeader] == Bearer(store[Storage.AuthTokenKey])
    ensures !Storage.HasItem(store, Storage.AuthTokenKey) ==> SameHeader(r.headers, cfg.headers, AuthorizationHeader)
    ensures cfg.body.FormDataBody? ==> ContentTypeHeader !in r.headers
    ensures !cfg.body.FormDataBody? ==> ContentTypeHeader in r.headers && r.headers[ContentTypeHeader] == JsonContentType
    ensures forall k :: k != AuthorizationHeader && k != ContentTypeHeader ==> SameHeader(r.headers, cfg.headers, k)
  {
    var withAuth :=
      if Storage.HasItem(store, Storage.AuthTokenKey)
      then cfg.headers[AuthorizationHeader := Bearer(store[Storage.AuthTokenKey])]
      else cfg.headers;
    var headers :=
      if cfg.body.FormDataBody? then withAuth - {ContentTypeHeader}
      else withAuth[ContentTypeHeader := JsonContentType];
    Config(cfg.url, headers, cfg.body)
  }

  /** Preparing a request twice gives the same request as preparing it once. */
  lemma PrepareIdempotent(store: Storage.Store, cfg: Config)
    ensures Prepare(store, Prepare(store, cfg)) == Prepare(store, cfg)
  {
  }
}
