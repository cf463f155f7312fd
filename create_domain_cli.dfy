/** The command-line setup script (create_domain.py): create the Mailgun subdomain (or fetch it when
    it already exists), find the Cloudflare zone, post the Mailgun records to it and start the
    verification. Every HTTP exchange is an input, keyed by the name it concerns or by the position
    of the record it posts; console output is not modelled. */
module CreateDomainCli {
  import opened PyStr
  import opened Py
  import opened Http
  import MailgunClient

  /** The reply's decoded body, the way the script's `except RequestException` clauses see it: a
      failed request, an HTTP error status and an undecodable body all end in `None` (`Null`). */
  function CheckedJson(x: Exchange): (r: Option<Json>)
    ensures r.Some? <==> x.Reply? && !IsErrorStatus(x.status) && x.body.Parsed?
    ensures r.Some? ==> r.value == x.body.json
  {
    if x.Failed? || RaiseForStatus(x).Raised? then None
    else match JsonOf(x)
      case Ok(j) => Some(j)
      case Raised(_) => None
  }

  /** `get_mailgun_domain_details(api_key, domain_name)`: the `domain` entry of the decoded body,
      None when it is absent or when the request failed. `.get` on a body that is not a dict raises
      AttributeError, which nothing catches. */
  function GetMailgunDomainDetails(x: Exchange): (r: Result<Json>)
    ensures CheckedJson(x).None? ==> r == Ok(Null)
    ensures CheckedJson(x).Some? ==> (r.Ok? <==> CheckedJson(x).value.Dict?)
    ensures CheckedJson(x).Some? && r.Ok? ==>
              r.value == if "domain" in x.body.json.fields then x.body.json.fields["domain"] else Null
  {
    match CheckedJson(x)
    case None => Ok(Null)
    case Some(body) => Get(body, "domain", Null)
  }

  const Phrase := "already exists"

  /** `"already exists" in str(err).lower()` */
  predicate AlreadyExists(errorText: string)
  {
    Contains(Lower(errorText), Phrase)
  }

  /** The slice of `errorText` at `i` reads "already exists" in some mix of upper and lower case. */
  predicate PhraseAt(errorText: string, i: nat)
  {
    i + |Phrase| <= |errorText| && Lower(errorText[i..i + |Phrase|]) == Phrase
  }

  /** The check ignores case: it holds exactly when "already exists" occurs in the error text,
      whatever the case of its letters. */
  lemma AlreadyExistsAnyCase(errorText: string)
    ensures AlreadyExists(errorText) <==> exists i: nat :: PhraseAt(errorText, i)
  {
    ContainsOccurs(Lower(errorText), Phrase);
    if AlreadyExists(errorText) {
      var i: nat :| OccursAt(Lower(errorText), Phrase, i);
      LowerSlice(errorText, i, i + |Phrase|);
      assert PhraseAt(errorText, i);
    }
    forall i: nat | PhraseAt(errorText, i)
      ensures AlreadyExists(errorText)
    {
      LowerSlice(errorText, i, i + |Phrase|);
      assert OccursAt(Lower(errorText), Phrase, i);
    }
  }

  /** `create_mailgun_domain(api_key, domain_name)`: `mailgun(name)` answers the creation of `name`
      and `details(name)` the follow-up lookup. It always creates `mg.<domain>` and returns that name
      with the decoded reply; on an "already exists" HTTP error, that name with the fetched details;
      on any other failure `(None, None)`. Only the details' `.get` can raise past it. */
  function CreateMailgunDomain(domain: string, mailgun: string -> Exchange, details: string -> Exchange)
    : (r: Result<(Option<string>, Json)>)
    ensures var mg := MailgunClient.Subdomain(domain);
            var x := mailgun(mg);
            && (CheckedJson(x).Some? ==> r == Ok((Some(mg), CheckedJson(x).value)))
            && (x.Reply? && IsErrorStatus(x.status) && AlreadyExists(x.errorText) ==>
                  r == (var d :- GetMailgunDomainDetails(details(mg)); Ok((Some(mg), d))))
            && ((x.Failed? || (IsErrorStatus(x.status) && !AlreadyExists(x.errorText))
                 || (!IsErrorStatus(x.status) && x.body.Unparsable?)) ==> r == Ok((None, Null)))
    ensures r.Ok? && r.value.0.Some? ==> r.value.0.value == MailgunClient.Subdomain(domain)
  {
    var mg := MailgunClient.Subdomain(domain);
    var x := mailgun(mg);
    if x.Failed? then Ok((None, Null))
    else match RaiseForStatus(x)
      case Raised(err) =>
        if AlreadyExists(err.message) then
          var d :- GetMailgunDomainDetails(details(mg));
          Ok((Some(mg), d))
        else Ok((None, Null))
      case Ok(_) =>
        match JsonOf(x)
        case Ok(body) => Ok((Some(mg), body))
        case Raised(_) => Ok((None, Null))
  }

  /** `get_cloudflare_zone_id(api_key, email, domain_name)`: the `id` of the first zone of `result`
      (default []), or None when there are no zones or the request failed. A body that is not a dict,
      a first zone without `id` and a `result` that cannot be indexed by 0 raise past it. */
  function GetCloudflareZoneId(x: Exchange): (r: Result<Json>)
    ensures CheckedJson(x).None? ==> r == Ok(Null)
    ensures CheckedJson(x).Some? && CheckedJson(x).value.Dict? ==>
              var fields := CheckedJson(x).value.fields;
              && ("result" !in fields || !Truthy(fields["result"]) ==> r == Ok(Null))
              && ("result" in fields && fields["result"].List? && fields["result"].items != [] ==>
                    r == Item(fields["result"].items[0], "id"))
    ensures CheckedJson(x).Some? && !CheckedJson(x).value.Dict? ==> r.Raised?
  {
    match CheckedJson(x)
    case None => Ok(Null)
    case Some(body) =>
      var zones :- Get(body, "result", List([]));
      if Truthy(zones) then
        var first :- At(zones, 0);
        Item(first, "id")
      else Ok(Null)
  }

  /** What happened to one record's POST. */
  datatype Outcome = Added | AlreadyPresent | HttpFailed(error: string) | NetworkFailed(error: string)

  /** The `try` around each record's POST: an HTTP error reading "already exists" in any case counts
      as already present, any other HTTP error and any transport error as a failure. */
  function Classify(x: Exchange): (o: Outcome)
    ensures o == Added <==> x.Reply? && !IsErrorStatus(x.status)
    ensures o == AlreadyPresent <==> x.Reply? && IsErrorStatus(x.status) && AlreadyExists(x.errorText)
    ensures o.NetworkFailed? <==> x.Failed?
  {
    if x.Failed? then NetworkFailed(x.message)
    else match RaiseForStatus(x)
      case Ok(_) => Added
      case Raised(err) => if AlreadyExists(err.message) then AlreadyPresent else HttpFailed(err.message)
  }

  /** The ttl of every record the script posts: one hour. */
  const Ttl := Num(3600)

  /** The payload posted for one Mailgun record: its `record_type`, `name` and `value` (each None
      when absent) as `type`, `name` and `content`, the ttl, and for MX `int(priority)`, priority
      defaulting to 10. Only the `.get` calls and `int()` can raise. */
  function Payload(record: Json): (r: Result<map<string, Json>>)
    ensures !record.Dict? ==> r.Raised?
    ensures r.Raised? ==> !record.Dict? || GetOr(record.fields, "record_type", Null) == Str("MX")
  {
    var recordType :- Get(record, "record_type", Null);
    var name := GetOr(record.fields, "name", Null);
    var value := GetOr(record.fields, "value", Null);
    var data := map["type" := recordType, "name" := name, "content" := value, "ttl" := Ttl];
    if recordType == Str("MX") then
      var p :- ToInt(GetOr(record.fields, "priority", Num(10)));
      Ok(data["priority" := Num(p)]["content" := value])
    else Ok(data)
  }

  /** A dict record's payload copies its three fields and sets the ttl to 3600; a priority is added
      for MX records only, and then it is the record's priority read by `int()`, or 10. */
  lemma PayloadFields(record: Json)
    requires record.Dict?
    ensures var r := Payload(record);
            var f := record.fields;
            && (GetOr(f, "record_type", Null) != Str("MX") ==> r.Ok? && r.value.Keys == {"type", "name", "content", "ttl"})
            && (GetOr(f, "record_type", Null) == Str("MX") ==>
                  var p := ToInt(GetOr(f, "priority", Num(10)));
                  (r.Ok? <==> p.Ok?) && (r.Ok? ==> "priority" in r.value && r.value["priority"] == Num(p.value)))
            && (r.Ok? ==> r.value["type"] == GetOr(f, "record_type", Null) && r.value["name"] == GetOr(f, "name", Null)
                          && r.value["content"] == GetOr(f, "value", Null) && r.value["ttl"] == Ttl)
  {
  }

  /** Only a dict record can be turned into a payload. */
  lemma PayloadNeedsDict(record: Json)
    ensures Payload(record).Ok? ==> record.Dict?
  {
  }

  /** The two record groups of a Mailgun domain response. */
  const SendingKey := "sending_dns_records"
  const ReceivingKey := "receiving_dns_records"

  /** The records to post: `sending_dns_records` followed by `receiving_dns_records`, each defaulting
      to []. A response that is not a dict, lists that cannot be added, and a non-empty str or dict
      in place of the list (its elements are strs, which have no `get`) raise. */
  function RecordsToAdd(response: Json): (r: Result<seq<Json>>)
    ensures response.Dict? ==>
              var s := GetOr(response.fields, SendingKey, List([]));
              var v := GetOr(response.fields, ReceivingKey, List([]));
              s.List? && v.List? ==> r == Ok(s.items + v.items)
    ensures !response.Dict? ==> r.Raised?
  {
    var sending :- Get(response, SendingKey, List([]));
    var receiving := GetOr(response.fields, ReceivingKey, List([]));
    var all :- Add(sending, receiving);
    DictLoop(all, StrGet)
  }

  /** The two groups are added with Python's `+`: a list with anything but a list raises TypeError
      naming the other operand's type, and two ints (or bools) add up to an int, which the `for` loop
      then cannot iterate. */
  lemma RecordsToAddOperands(response: Json)
    ensures response.Dict? ==>
              var s := GetOr(response.fields, SendingKey, List([]));
              var v := GetOr(response.fields, ReceivingKey, List([]));
              && (s.List? && !v.List? ==>
                    RecordsToAdd(response) == Raised(Exc(TypeError, CanOnlyConcatenate + "list (not \"" + TypeName(v) + "\") to list")))
              && (IntLike(s) && IntLike(v) ==>
                    RecordsToAdd(response) == Raised(Exc(TypeError, "'int" + ObjectNotIterable)))
  {
  }

  /** One record's pass: the payload posted and what came of it. */
  datatype Attempt = Attempt(payload: map<string, Json>, outcome: Outcome)

  /** One pass of the loop: build the payload, post it, classify the reply. */
  function Pass(record: Json, reply: Exchange): (r: Result<Attempt>)
    ensures r.Ok? <==> Payload(record).Ok?
    ensures r.Ok? ==> r.value.payload == Payload(record).value && r.value.outcome == Classify(reply)
  {
    var payload :- Payload(record);
    Ok(Attempt(payload, Classify(reply)))
  }

  /** The pass of each record, record `k` answered by `replies(k)`. */
  function Passes(records: seq<Json>, replies: nat -> Exchange): (passes: seq<Result<Attempt>>)
    ensures |passes| == |records|
    ensures forall k :: 0 <= k < |records| ==> passes[k] == Pass(records[k], replies(k))
  {
    seq(|records|, k requires 0 <= k < |records| => Pass(records[k], replies(k)))
  }

  /** The loop over the records: every record is posted, whatever happened to the ones before it;
      only an exception raised while building a payload ends it. */
  function AddAll(records: seq<Json>, replies: nat -> Exchange): (r: Result<seq<Attempt>>)
    ensures r.Ok? <==> forall k :: 0 <= k < |records| ==> Pass(records[k], replies(k)).Ok?
    ensures r.Ok? ==> |r.value| == |records|
                      && forall k :: 0 <= k < |records| ==> Pass(records[k], replies(k)) == Ok(r.value[k])
    ensures r.Raised? ==> exists k :: 0 <= k < |records| && Pass(records[k], replies(k)) == Raised(r.exc)
                                      && forall j :: 0 <= j < k ==> Pass(records[j], replies(j)).Ok?
  {
    Collect(Passes(records, replies))
  }

  /** `add_dns_records_to_cloudflare(api_key, email, zone_id, mailgun_dns_records)` */
  function AddDnsRecords(response: Json, replies: nat -> Exchange): Result<seq<Attempt>>
  {
    var records :- RecordsToAdd(response);
    AddAll(records, replies)
  }

  /** `add_dns_records_to_cloudflare(...)` as the script runs it: one pass per record, building the
      `data` dict and then overwriting its MX fields in place. */
  method AddDnsRecordsToCloudflare(response: Json, replies: nat -> Exchange) returns (r: Result<seq<Attempt>>)
    ensures r == AddDnsRecords(response, replies)
  {
    var records := RecordsToAdd(response);
    if records.Raised? {
      return Raised(records.exc);
    }
    r := PostEach(records.value, replies);
  }

  /** The `for` loop of `add_dns_records_to_cloudflare`. */
  method PostEach(records: seq<Json>, replies: nat -> Exchange) returns (r: Result<seq<Attempt>>)
    ensures r == AddAll(records, replies)
  {
    ghost var passes := Passes(records, replies);
    var attempts: seq<Attempt> := [];
    var k := 0;
    while k < |records|
      invariant 0 <= k <= |records|
      invariant Collect(passes[..k]) == Ok(attempts)
    {
      var attempt := PostOne(records[k], replies(k));
      assert attempt == passes[k];
      if attempt.Raised? {
        CollectFirstFailure(passes, k);
        return Raised(attempt.exc);
      }
      CollectStep(passes, k, attempts);
      attempts := attempts + [attempt.value];
      k := k + 1;
    }
    assert passes[..k] == passes;
    r := Ok(attempts);
  }

  /** One pass of the loop: the payload is built, then posted. `Pass` is its specification. */
  method PostOne(record: Json, reply: Exchange) returns (r: Result<Attempt>)
    ensures r == Pass(record, reply)
  {
    var data := BuildPayload(record);
    if data.Raised? {
      return Raised(data.exc);
    }
    var outcome := Classify(reply);
    r := Ok(Attempt(data.value, outcome));
  }

  /** The `data` dict of one pass, with its MX fields overwritten in place. `Payload` is its
      specification. */
  method BuildPayload(record: Json) returns (r: Result<map<string, Json>>)
    ensures r == Payload(record)
  {
    var recordType := Get(record, "record_type", Null);
    if recordType.Raised? {
      return Raised(recordType.exc);
    }
    var name := GetOr(record.fields, "name", Null);
    var value := GetOr(record.fields, "value", Null);
    var data := map["type" := recordType.value, "name" := name, "content" := value, "ttl" := Ttl];
    if recordType.value == Str("MX") {
      var p := ToInt(GetOr(record.fields, "priority", Num(10)));
      if p.Raised? {
        return Raised(p.exc);
      }
      data := data["priority" := Num(p.value)];
      data := data["content" := value];
    }
    r := Ok(data);
  }

  /** A Mailgun response whose two record groups are the lists `sending` and `receiving`. */
  predicate Listed(response: Json, sending: seq<Json>, receiving: seq<Json>)
  {
    && response.Dict?
    && GetOr(response.fields, SendingKey, List([])) == List(sending)
    && GetOr(response.fields, ReceivingKey, List([])) == List(receiving)
  }

  /** Sending records are posted before receiving records, each group in its own order: for a
      response holding two record lists, attempt `k` is the `k`-th sending record, then the receiving
      ones follow. */
  lemma SendingBeforeReceiving(response: Json, sending: seq<Json>, receiving: seq<Json>, replies: nat -> Exchange)
    requires Listed(response, sending, receiving)
    requires AddDnsRecords(response, replies).Ok?
    ensures var r := AddDnsRecords(response, replies).value;
            |r| == |sending| + |receiving|
            && (forall k :: 0 <= k < |sending| ==> r[k].payload == Payload(sending[k]).value)
            && (forall k :: 0 <= k < |receiving| ==> r[|sending| + k].payload == Payload(receiving[k]).value)
  {
    assert RecordsToAdd(response) == Ok(sending + receiving);
    var all := sending + receiving;
    forall k | 0 <= k < |receiving| ensures all[|sending| + k] == receiving[k] {
    }
  }

  /** `verify_mailgun_domain(api_key, domain_name)`: the decoded reply when verification started, or
      the failure it printed. Dumping the reply as JSON cannot raise. */
  datatype Verification = Initiated(result: Json) | VerifyHttpFailed(error: string) | VerifyNetworkFailed(error: string)

  function VerifyMailgunDomain(x: Exchange): (v: Verification)
    ensures v.Initiated? <==> CheckedJson(x).Some?
    ensures v.Initiated? ==> v.result == x.body.json
    ensures v.VerifyHttpFailed? <==> x.Reply? && IsErrorStatus(x.status)
  {
    if x.Failed? then VerifyNetworkFailed(x.message)
    else match RaiseForStatus(x)
      case Raised(err) => VerifyHttpFailed(err.message)
      case Ok(_) =>
        match JsonOf(x)
        case Ok(result) => Initiated(result)
        case Raised(e) => VerifyNetworkFailed(e.message)
  }

  /** How a run of the script ends. */
  datatype Run =
    | NoMailgunDomain                               // creation failed or gave a falsy response
    | NoZone                                        // the zone lookup gave nothing
    | Applied(attempts: seq<Attempt>, verification: Verification)

  /** `main()` after the user's input: `mailgun`, `details` and `verify` answer the Mailgun calls for a
      name, `zones` the zone lookup for a name, `replies(k)` the `k`-th record's POST. A raised result
      is an exception that ends the script. */
  function Main(domain: string, mailgun: string -> Exchange, details: string -> Exchange,
                zones: string -> Exchange, replies: nat -> Exchange, verify: string -> Exchange): (r: Result<Run>)
    ensures r.Ok? && r.value.Applied? ==>
              var zone := GetCloudflareZoneId(zones(domain));
              CreateMailgunDomain(domain, mailgun, details).Ok? && zone.Ok? && Truthy(zone.value)
  {
    var (mgDomain, response) :- CreateMailgunDomain(domain, mailgun, details);
    if !(mgDomain.Some? && mgDomain.value != "" && Truthy(response)) then Ok(NoMailgunDomain)
    else
      var zoneId :- GetCloudflareZoneId(zones(domain));
      if !Truthy(zoneId) then Ok(NoZone)
      else
        var attempts :- AddDnsRecords(response, replies);
        Ok(Applied(attempts, VerifyMailgunDomain(verify(mgDomain.value))))
  }

  /** Records are posted only when the Mailgun step returned a truthy response and the zone lookup for
      the domain itself found a zone id; then they are the response's records and verification runs
      for `mg.<domain>`. */
  lemma MainGating(domain: string, mailgun: string -> Exchange, details: string -> Exchange,
                   zones: string -> Exchange, replies: nat -> Exchange, verify: string -> Exchange)
    ensures var r := Main(domain, mailgun, details, zones, replies, verify);
            var c := CreateMailgunDomain(domain, mailgun, details);
            var mg := MailgunClient.Subdomain(domain);
            r.Ok? && r.value.Applied? <==>
              && c.Ok? && c.value.0.Some? && Truthy(c.value.1)
              && GetCloudflareZoneId(zones(domain)).Ok? && Truthy(GetCloudflareZoneId(zones(domain)).value)
              && AddDnsRecords(c.value.1, replies).Ok?
    ensures var r := Main(domain, mailgun, details, zones, replies, verify);
            var c := CreateMailgunDomain(domain, mailgun, details);
            r.Ok? && r.value.Applied? ==>
              r.value.attempts == AddDnsRecords(c.value.1, replies).value
              && r.value.verification == VerifyMailgunDomain(verify(MailgunClient.Subdomain(domain)))
  {
  }

  /** When the gate stays closed, nothing is posted: the run does not depend on the replies the
      record POSTs would get, nor on the verification reply. */
  lemma GateClosedPostsNothing(domain: string, mailgun: string -> Exchange, details: string -> Exchange,
                               zones: string -> Exchange, replies: nat -> Exchange, verify: string -> Exchange,
                               otherReplies: nat -> Exchange, otherVerify: string -> Exchange)
    requires var r := Main(domain, mailgun, details, zones, replies, verify);
             r.Ok? && !r.value.Applied?
    ensures Main(domain, mailgun, details, zones, replies, verify)
            == Main(domain, mailgun, details, zones, otherReplies, otherVerify)
  {
  }
}
