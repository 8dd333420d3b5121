/** The three calls to the DNS provider's HTTP API: the requests the hook
    builds, and how it reads the replies. The network round trip itself is an
    input, a `Reply`. */
module Provider {
  import opened Numbers
  import opened Records

  const ApiUrl: string := "https://pddimp.yandex.ru"

  datatype Endpoint = ListEndpoint | AddEndpoint | DelEndpoint

  function Path(e: Endpoint): string {
    match e
    case ListEndpoint => "/api2/admin/dns/list"
    case AddEndpoint => "/api2/admin/dns/add"
    case DelEndpoint => "/api2/admin/dns/del"
  }

  /** The query parameter names the hook uses. */
  datatype Param = DomainParam | TypeParam | ContentParam | TtlParam | SubdomainParam | RecordIdParam

  /** The name each parameter has on the wire. */
  function Name(p: Param): string {
    match p
    case DomainParam => "domain"
    case TypeParam => "type"
    case ContentParam => "content"
    case TtlParam => "ttl"
    case SubdomainParam => "subdomain"
    case RecordIdParam => "record_id"
  }

  /** A request as the hook builds it: the HTTP method, the endpoint under
      `ApiUrl`, the value of the `PddToken` header, and the query parameters
      in the order they were added. */
  datatype Request = Request(verb: string, endpoint: Endpoint, pddToken: string, query: seq<(Param, string)>)

  function Url(q: Request): string {
    ApiUrl + Path(q.endpoint)
  }

  /** The parameter names, in order. */
  function Keys(query: seq<(Param, string)>): seq<Param>
  {
    seq(|query|, i requires 0 <= i < |query| => query[i].0)
  }

  /** The first value added under `key`, or "" when there is none, as
      `url.Values.Get` answers. */
  function Get(query: seq<(Param, string)>, key: Param): (v: string)
    ensures (forall i :: 0 <= i < |query| ==> query[i].0 != key) ==> v == ""
    ensures forall i :: (0 <= i < |query| && query[i].0 == key
                         && forall j :: 0 <= j < i ==> query[j].0 != key) ==> v == query[i].1
  {
    if query == [] then ""
    else if query[0].0 == key then query[0].1
    else Get(query[1..], key)
  }

  /** `GET /api2/admin/dns/list?domain=<domain>`. */
  function ListRequest(pddToken: string, domain: string): (q: Request)
    ensures q.verb == "GET" && q.endpoint == ListEndpoint && q.pddToken == pddToken
    ensures Url(q) == ApiUrl + "/api2/admin/dns/list"
    ensures Keys(q.query) == [DomainParam] && Get(q.query, DomainParam) == domain
  {
    Request("GET", ListEndpoint, pddToken, [(DomainParam, domain)])
  }

  const AcmeSubdomainPrefix: string := "_acme-challenge."

  /** `POST /api2/admin/dns/add` carrying a TXT record with the token as its
      content, a TTL of 3600 and the `_acme-challenge.` name of the domain. */
  function AddRequest(pddToken: string, domain: string, txtChallenge: string): (q: Request)
    ensures q.verb == "POST" && q.endpoint == AddEndpoint && q.pddToken == pddToken
    ensures Url(q) == ApiUrl + "/api2/admin/dns/add"
    ensures Keys(q.query) == [DomainParam, TypeParam, ContentParam, TtlParam, SubdomainParam]
    ensures Get(q.query, DomainParam) == domain
    ensures Get(q.query, TypeParam) == "TXT"
    ensures Get(q.query, ContentParam) == txtChallenge
    ensures Get(q.query, TtlParam) == "3600"
    ensures Get(q.query, SubdomainParam) == AcmeSubdomainPrefix + domain
  {
    var query := [
      (DomainParam, domain),
      (TypeParam, "TXT"),
      (ContentParam, txtChallenge),
      (TtlParam, "3600"),
      (SubdomainParam, AcmeSubdomainPrefix + domain)];
    assert query[2].0 == ContentParam && query[3].0 == TtlParam && query[4].0 == SubdomainParam;
    Request("POST", AddEndpoint, pddToken, query)
  }

  /** `POST /api2/admin/dns/del` keyed by the domain and the record id alone;
      the `record_id` parameter reads back as exactly `recordId`. */
  function DelRequest(pddToken: string, domain: string, recordId: Int64): (q: Request)
    ensures q.verb == "POST" && q.endpoint == DelEndpoint && q.pddToken == pddToken
    ensures Url(q) == ApiUrl + "/api2/admin/dns/del"
    ensures Keys(q.query) == [DomainParam, RecordIdParam]
    ensures Get(q.query, DomainParam) == domain
    ensures IsDecimal(Get(q.query, RecordIdParam))
    ensures ParseDecimal(Get(q.query, RecordIdParam)) == recordId
  {
    ParseFormatDecimal(recordId);
    Request("POST", DelEndpoint, pddToken, [(DomainParam, domain), (RecordIdParam, FormatDecimal(recordId))])
  }

  /** Two delete requests for one domain are equal only when they name the
      same record id. */
  lemma DelRequestInjective(pddToken: string, domain: string, a: Int64, b: Int64)
    ensures DelRequest(pddToken, domain, a) == DelRequest(pddToken, domain, b) <==> a == b
  {
  }

  /** What can go wrong in one invocation. */
  datatype Error =
    | TransportError(message: string)   // the request got no response
    | DecodeError(message: string)      // the body is not the expected JSON
    | ProviderError(message: string)    // the envelope says "error"
    | NotFoundError(content: string)    // no listed record carries the token

  const NotFoundPrefix: string := "Acme dns record with content "
  const NotFoundSuffix: string := " - not found"

  /** The text the error carries. The provider's message is passed on as it
      is; the not-found message names the token. */
  function Message(e: Error): (m: string)
    ensures e.NotFoundError? ==> m == NotFoundPrefix + e.content + NotFoundSuffix
    ensures !e.NotFoundError? ==> m == e.message
  {
    match e
    case TransportError(msg) => msg
    case DecodeError(msg) => msg
    case ProviderError(msg) => msg
    case NotFoundError(content) => NotFoundPrefix + content + NotFoundSuffix
  }

  /** Different tokens give different not-found messages: the message names
      the token it was raised for. */
  lemma NotFoundMessageInjective(a: string, b: string)
    ensures Message(NotFoundError(a)) == Message(NotFoundError(b)) ==> a == b
  {
    var ma, mb := Message(NotFoundError(a)), Message(NotFoundError(b));
    if ma == mb {
      var lo := |NotFoundPrefix|;
      assert ma[lo..|ma| - |NotFoundSuffix|] == a;
      assert mb[lo..|mb| - |NotFoundSuffix|] == b;
    }
  }

  /** The outcome of one round trip: no response, a body that does not
      decode, or a decoded envelope. */
  datatype Reply<T> = NoResponse(cause: string) | Unparsable(cause: string) | Envelope(body: T)

  datatype ListResponse = ListResponse(records: seq<DNSRecord>, success: string, error: string)
  datatype CreateResponse = CreateResponse(record: DNSRecord, success: string, error: string)
  datatype DeleteResponse = DeleteResponse(echoed: DNSRecord, success: string, error: string)

  datatype Result<T> = Success(value: T) | Failure(error: Error)

  /** The envelope discriminator: only the exact string "error" is a
      failure, and then the envelope's message is the error. */
  function EnvelopeStatus(success: string, error: string): (r: Result<()>)
    ensures r.Failure? <==> success == "error"
    ensures r.Failure? ==> r.error == ProviderError(error)
  {
    if success == "error" then Failure(ProviderError(error)) else Success(())
  }

  /** Any other discriminator, however close to "error", counts as success. */
  lemma EnvelopeStatusExactMatch(error: string)
    ensures EnvelopeStatus("ok", error).Success?
    ensures EnvelopeStatus("", error).Success?
    ensures EnvelopeStatus("ERROR", error).Success?
    ensures EnvelopeStatus("error", error) == Failure(ProviderError(error))
  {
  }

  /** The listing call: its envelope's records are returned whatever the
      discriminator says. */
  function ListRecords(reply: Reply<ListResponse>): (r: Result<seq<DNSRecord>>)
    ensures r.Success? <==> reply.Envelope?
    ensures r.Success? ==> r.value == reply.body.records
    ensures reply.NoResponse? ==> r.error == TransportError(reply.cause)
    ensures reply.Unparsable? ==> r.error == DecodeError(reply.cause)
  {
    match reply
    case NoResponse(cause) => Failure(TransportError(cause))
    case Unparsable(cause) => Failure(DecodeError(cause))
    case Envelope(container) => Success(container.records)
  }

  /** A listing envelope marked "error" is still read as a (usually empty)
      list of records, never as a provider error. */
  lemma ListIgnoresDiscriminator(records: seq<DNSRecord>, success: string, error: string)
    ensures ListRecords(Envelope(ListResponse(records, success, error))) == Success(records)
    ensures ListRecords(Envelope(ListResponse(records, success, error)))
         == ListRecords(Envelope(ListResponse(records, "ok", "")))
  {
  }
}
