/** The email-provider client of the web application (src/api/mailgun_client.py). Each method is a
    classifier of its single HTTP exchange, which is an input; URLs and credentials are not modelled. */
module MailgunClient {
  import opened PyStr
  import opened Py
  import opened Http

  /** A `MailgunClient` after `__init__`: the only two attributes it sets. */
  datatype Client = Client(apiKey: string, baseUrl: string)

  const ApiBase := "https://api.mailgun.net/v3"

  /** `MailgunClient(api_key)` */
  function New(apiKey: string): (c: Client)
    ensures c.apiKey == apiKey && c.baseUrl == ApiBase
  {
    Client(apiKey, ApiBase)
  }

  const NoSuchAttribute := "'MailgunClient' object has no attribute '"

  /** `getattr(client, name)` for a data attribute: `api_key` and `base_url` exist, nothing else does. */
  function Attribute(c: Client, name: string): (r: Result<string>)
    ensures r.Ok? <==> name == "api_key" || name == "base_url"
  {
    if name == "api_key" then Ok(c.apiKey)
    else if name == "base_url" then Ok(c.baseUrl)
    else Raised(Exc(AttributeError, NoSuchAttribute + name + "'"))
  }

  /** `create_domain(domain_name)`: success is `status == 200`, and the decoded body comes along;
      a failed request or an undecodable body raises. */
  function CreateDomain(x: Exchange): (r: Result<(bool, Json)>)
    ensures r.Raised? <==> x.Failed? || x.body.Unparsable?
    ensures r.Ok? ==> (r.value.0 <==> x.status == 200) && x.body == Parsed(r.value.1)
  {
    if x.Failed? then Raised(TransportError(x))
    else
      var body :- JsonOf(x);
      Ok((x.status == 200, body))
  }

  /** `f"mg.{domain}"`: the sending subdomain every caller registers with Mailgun. */
  function Subdomain(domain: string): (r: string)
    ensures |r| == |domain| + 3 && r[..3] == "mg." && r[3..] == domain
  {
    "mg." + domain
  }

  /** `{"error": message}` */
  function ErrorDict(message: string): Json
  {
    Dict(map["error" := Str(message)])
  }

  /** The shape `get_domain` and `list_domains` share: `(True, json)` for a 200 reply; `(False,
      {"error": text})` for any other status; `(False, {"error": str(e)})` when the request or the
      decoding raised. */
  function FetchJson(x: Exchange): (r: (bool, Json))
    ensures x.Failed? ==> r == (false, ErrorDict(x.message))
    ensures x.Reply? && x.status != 200 ==> r == (false, ErrorDict(x.text))
    ensures x.Reply? && x.status == 200 ==>
              r == match x.body
                   case Parsed(j) => (true, j)
                   case Unparsable(e) => (false, ErrorDict(e))
  {
    if x.Failed? then (false, ErrorDict(x.message))
    else if x.status == 200 then
      match JsonOf(x)
      case Ok(j) => (true, j)
      case Raised(e) => (false, ErrorDict(e.message))
    else (false, ErrorDict(x.text))
  }

  /** `get_domain(domain_name)`: success exactly on a decodable 200 reply, which is returned whole;
      otherwise a dict holding only `error`. It never raises. */
  function GetDomain(x: Exchange): (r: (bool, Json))
    ensures r.0 <==> x.Reply? && x.status == 200 && x.body.Parsed?
    ensures r.0 ==> r.1 == x.body.json
    ensures !r.0 ==> r.1.Dict? && r.1.fields.Keys == {"error"}
  {
    FetchJson(x)
  }

  /** `list_domains()`: the same three-way result as `get_domain`. Its try/except body is
      `get_domain`'s with another URL and other log text, so its contract mirrors `GetDomain`'s. */
  function ListDomains(x: Exchange): (r: (bool, Json))
    ensures r.0 <==> x.Reply? && x.status == 200 && x.body.Parsed?
    ensures r.0 ==> r.1 == x.body.json
    ensures !r.0 ==> r.1.Dict? && r.1.fields.Keys == {"error"}
  {
    FetchJson(x)
  }

  const EmptyDict := Dict(map[])

  /** The three lists `get_domain_dns_records` returns and the keys of the domain info they come from. */
  const RecordKeys := ["mx", "txt", "cname"]
  const InfoKeys := ["mx_records", "txt_records", "cname_records"]

  /** The body of the `try` in `get_domain_dns_records(domain)`, with the request URL built from the
      client attribute `attr`. The debugging prints it contains can raise too: `data.keys()` on a
      truthy body, and `len()` of each list. */
  function DnsRecordsTry(c: Client, attr: string, x: Exchange): Result<(bool, Json)>
  {
    var _ :- Attribute(c, attr);
    if x.Failed? then Raised(TransportError(x))
    else if x.status == 200 then
      var data :- JsonOf(x);
      var _ :- if Truthy(data) then Keys(data) else Ok({});
      var hasDomain :- In("domain", data);
      if hasDomain then
        var info :- Item(data, "domain");
        var mx :- Get(info, InfoKeys[0], List([]));
        var txt :- Get(info, InfoKeys[1], List([]));
        var cname :- Get(info, InfoKeys[2], List([]));
        var _ :- Len(mx);
        var _ :- Len(txt);
        var _ :- Len(cname);
        Ok((true, Dict(map[RecordKeys[0] := mx, RecordKeys[1] := txt, RecordKeys[2] := cname])))
      else Ok((false, EmptyDict))
    else Ok((false, EmptyDict))
  }

  /** The `try` body raises for an attribute the client lacks. When it returns, it reports success
      exactly for a records reply, and a failure carries the empty dict. */
  lemma DnsRecordsTryCases(c: Client, attr: string, x: Exchange)
    ensures attr != "api_key" && attr != "base_url" ==> DnsRecordsTry(c, attr, x).Raised?
    ensures var r := DnsRecordsTry(c, attr, x);
            r.Ok? ==> (r.value.0 <==> RecordsReply(x)) && (!r.value.0 ==> r.value.1 == EmptyDict)
  {
  }

  /** `get_domain_dns_records(domain)`, whose `except` clauses turn every exception into `(False, {})`. */
  function DnsRecordsVia(c: Client, attr: string, x: Exchange): (bool, Json)
  {
    match DnsRecordsTry(c, attr, x)
    case Ok(v) => v
    case Raised(_) => (false, EmptyDict)
  }

  /** `get_domain_dns_records` as written: the URL reads `self.api_base`, which `__init__` never sets,
      so the attribute lookup raises and every call returns `(False, {})`, whatever Mailgun would reply. */
  function GetDomainDnsRecordsAsWritten(c: Client, x: Exchange): (r: (bool, Json))
    ensures r == (false, EmptyDict)
  {
    DnsRecordsVia(c, "api_base", x)
  }

  /** A value `len()` accepts. */
  predicate Sized(j: Json)
  {
    j.Str? || j.List? || j.Dict?
  }

  /** The replies `get_domain_dns_records` reports as a success: a 200 whose body is a dict with a
      `domain` dict, whose three record entries (each defaulting to []) all have a length. */
  predicate RecordsReply(x: Exchange)
  {
    && x.Reply? && x.status == 200 && x.body.Parsed? && x.body.json.Dict?
    && "domain" in x.body.json.fields
    && var info := x.body.json.fields["domain"];
       info.Dict? && forall k :: 0 <= k < 3 ==> Sized(GetOr(info.fields, InfoKeys[k], List([])))
  }

  /** `get_domain_dns_records(domain)` with its URL built from `base_url`, as evidently intended.
      Success exactly for a records reply; then the result has exactly the keys `mx`, `txt` and
      `cname`, each holding the domain's `*_records` entry or [] when it is absent. Every failure,
      including every exception, gives `(False, {})`. */
  function GetDomainDnsRecords(c: Client, x: Exchange): (r: (bool, Json))
    ensures r.0 <==> RecordsReply(x)
    ensures !r.0 ==> r.1 == EmptyDict
    ensures r.0 ==> r.1.Dict? && r.1.fields.Keys == {"mx", "txt", "cname"}
    ensures r.0 ==> forall k :: 0 <= k < 3 ==>
              r.1.fields[RecordKeys[k]] == GetOr(x.body.json.fields["domain"].fields, InfoKeys[k], List([]))
  {
    DnsRecordsVia(c, "base_url", x)
  }

  /** `verify_domain(domain_name)`: success is `status == 200`, and the decoded body comes along;
      a failed request or an undecodable body raises. Its body is `create_domain`'s with another URL
      and no form data, so its contract and definition mirror `CreateDomain`'s. */
  function VerifyDomain(x: Exchange): (r: Result<(bool, Json)>)
    ensures r.Raised? <==> x.Failed? || x.body.Unparsable?
    ensures r.Ok? ==> (r.value.0 <==> x.status == 200) && x.body == Parsed(r.value.1)
  {
    if x.Failed? then Raised(TransportError(x))
    else
      var body :- JsonOf(x);
      Ok((x.status == 200, body))
  }
}
