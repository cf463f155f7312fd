/** The record-list orchestration of the Flask application (src/main.py): the fallback record list,
    the domain-variant search behind the manual setup page, the record-creation loop of the automatic
    setup endpoint, and the field check and branch of the setup form. Routing, templates, flashing
    and JSON rendering are represented by the values the handlers hand to them. */
module WebApp {
  import opened PyStr
  import opened Py
  import opened Http
  import CloudflareClient
  import MailgunClient

  // ---------------------------------------------------------------------------------------------
  // get_fallback_dns_records

  const SpfValue := "v=spf1 include:mailgun.org ~all"
  const DkimValue := "k=rsa; p=MIGfMA0GCSqGSIb3DQEBAQUAA4GNADCBiQKBgQC...(contact Mailgun for actual DKIM key)"
  const MxaValue := "10 mxa.mailgun.org"
  const MxbValue := "10 mxb.mailgun.org"

  /** The record types of the fallback list, in order, and what each name puts before `mg.<domain>`. */
  const FallbackTypes := ["TXT", "TXT", "CNAME", "MX", "MX"]
  const FallbackPrefixes := ["", "krs._domainkey.", "email.", "", ""]
  const RecordKeys := {"type", "name", "value", "description"}

  function FallbackEntry(recordType: string, name: string, value: string, description: string): Json
  {
    Dict(map["type" := Str(recordType), "name" := Str(name), "value" := Str(value),
             "description" := Str(description)])
  }

  /** `get_fallback_dns_records(domain)`: five records, SPF TXT, DKIM TXT, tracking CNAME and the two
      MX hosts, each a dict with the same four keys, named under the domain's `mg.` subdomain. */
  function FallbackRecords(domain: string): (r: Json)
    ensures r.List? && |r.items| == 5
    ensures forall i :: 0 <= i < 5 ==>
              r.items[i].Dict? && r.items[i].fields.Keys == RecordKeys
              && r.items[i].fields["type"] == Str(FallbackTypes[i])
              && r.items[i].fields["name"] == Str(FallbackPrefixes[i] + MailgunClient.Subdomain(domain))
  {
    var mg := MailgunClient.Subdomain(domain);
    assert "" + mg == mg;
    List([
      FallbackEntry("TXT", mg, SpfValue, "SPF Record"),
      FallbackEntry("TXT", "krs._domainkey." + mg, DkimValue, "DKIM Record"),
      FallbackEntry("CNAME", "email." + mg, "mailgun.org", "Tracking Record"),
      FallbackEntry("MX", mg, MxaValue, "MX Record"),
      FallbackEntry("MX", mg, MxbValue, "MX Record (Backup)")
    ])
  }

  /** Every fallback name lies under `mg.<domain>`: it ends with that subdomain. */
  lemma FallbackNamesUnderSubdomain(domain: string)
    ensures var r := FallbackRecords(domain);
            var mg := MailgunClient.Subdomain(domain);
            forall i :: 0 <= i < 5 ==>
              var name := r.items[i].fields["name"].s;
              |name| >= |mg| && name[|name| - |mg|..] == mg
  {
    var r := FallbackRecords(domain);
    var mg := MailgunClient.Subdomain(domain);
    forall i | 0 <= i < 5
      ensures var name := r.items[i].fields["name"].s; |name| >= |mg| && name[|name| - |mg|..] == mg
    {
      var name := r.items[i].fields["name"].s;
      assert name == FallbackPrefixes[i] + mg;
      assert name[|FallbackPrefixes[i]|..] == mg;
    }
  }

  /** Both fallback MX values are "10 <host>": sent to the DNS host as they stand, they give priority
      10 and the bare host name as the content. */
  lemma FallbackMxPriority(domain: string, i: nat)
    requires 3 <= i < 5
    ensures var f := FallbackRecords(domain).items[i].fields;
            var p := CloudflareClient.RecordPayload(f["type"], f["name"], f["value"], CloudflareClient.DefaultTtl);
            p.Ok? && "priority" in p.value && p.value["priority"] == Num(10)
            && p.value["content"] == Str(if i == 3 then "mxa.mailgun.org" else "mxb.mailgun.org")
  {
    var f := FallbackRecords(domain).items[i].fields;
    var host := if i == 3 then "mxa.mailgun.org" else "mxb.mailgun.org";
    assert f["type"] == Str("MX") && f["value"] == Str(IntToString(10) + " " + host) by {
      MxValueShape(host);
    }
    MxPayload(f["name"], f["value"], host);
  }

  /** A record whose value is "10 <host>" is posted with priority 10 and content host. */
  lemma MxPayload(name: Json, value: Json, host: string)
    requires value == Str(IntToString(10) + " " + host)
    ensures var p := CloudflareClient.RecordPayload(Str("MX"), name, value, CloudflareClient.DefaultTtl);
            p.Ok? && "priority" in p.value && p.value["priority"] == Num(10) && p.value["content"] == Str(host)
  {
    CloudflareClient.MxContentSplit(name, 10, host, CloudflareClient.DefaultTtl);
  }

  lemma MxValueShape(host: string)
    ensures host == "mxa.mailgun.org" ==> MxaValue == IntToString(10) + " " + host
    ensures host == "mxb.mailgun.org" ==> MxbValue == IntToString(10) + " " + host
  {
    TenShown();
  }

  lemma TenShown()
    ensures IntToString(10) == "10"
  {
    assert NatToString(1) == "1";
    assert DigitChar(0) == '0';
  }

  // ---------------------------------------------------------------------------------------------
  // get_mailgun_dns_records

  /** The names tried, in order: the domain as entered, then with `mg.`, `mail.` and `email.` in front.
      Each is longer than the one before, so no name is tried twice. */
  function DomainVariants(domain: string): (r: seq<string>)
    ensures |r| == 4 && r[0] == domain && r[1] == MailgunClient.Subdomain(domain)
    ensures r[2] == "mail." + domain && r[3] == "email." + domain
    ensures forall i :: 0 <= i < 4 ==> |r[i]| >= |domain| && r[i][|r[i]| - |domain|..] == domain
    ensures forall i, j :: 0 <= i < j < 4 ==> |r[i]| < |r[j]|
  {
    [domain, MailgunClient.Subdomain(domain), "mail." + domain, "email." + domain]
  }

  /** The listing step of `get_mailgun_dns_records`: when `list_domains()` succeeds and its result has
      `items`, those items are iterated and their names printed. The membership test, the subscript,
      the iteration and each item's `get('name', 'Unknown')` can raise. */
  function ListingCheck(listed: (bool, Json)): (r: Result<()>)
    ensures !listed.0 ==> r.Ok?
    ensures listed.0 && listed.1.Dict? && "items" !in listed.1.fields ==> r.Ok?
    ensures listed.0 && listed.1.Dict? && "items" in listed.1.fields && listed.1.fields["items"].List? ==>
              (r.Ok? <==> forall k :: 0 <= k < |listed.1.fields["items"].items| ==> listed.1.fields["items"].items[k].Dict?)
  {
    if !listed.0 then Ok(())
    else
      var hasItems :- In("items", listed.1);
      if !hasItems then Ok(())
      else
        var items :- Item(listed.1, "items");
        var elems :- DictLoop(items, StrGet);
        GetFromEach(elems, "name", Str("Unknown"))
  }

  /** The lookup result of the first name whose `get_domain_dns_records` succeeds with records that
      are truthy, or None when no name does. */
  function SearchVariants(names: seq<string>, lookup: string -> (bool, Json)): Option<Json>
  {
    if names == [] then None
    else if lookup(names[0]).0 && Truthy(lookup(names[0]).1) then Some(lookup(names[0]).1)
    else SearchVariants(names[1..], lookup)
  }

  /** A name whose lookup counts as a hit. */
  predicate Hit(lookup: string -> (bool, Json), name: string)
  {
    lookup(name).0 && Truthy(lookup(name).1)
  }

  /** The search is first-hit-wins: it finds something exactly when some name hits, and then it
      returns the records of the earliest such name. */
  lemma {:induction false} SearchVariantsFirstHit(names: seq<string>, lookup: string -> (bool, Json))
    ensures SearchVariants(names, lookup).None? <==> forall i :: 0 <= i < |names| ==> !Hit(lookup, names[i])
    ensures SearchVariants(names, lookup).Some? ==>
              exists i :: 0 <= i < |names| && Hit(lookup, names[i])
                          && SearchVariants(names, lookup).value == lookup(names[i]).1
                          && forall j :: 0 <= j < i ==> !Hit(lookup, names[j])
    decreases |names|
  {
    if names != [] {
      SearchVariantsFirstHit(names[1..], lookup);
      if !Hit(lookup, names[0]) {
        if SearchVariants(names, lookup).Some? {
          var i :| 0 <= i < |names[1..]| && Hit(lookup, names[1..][i])
                   && SearchVariants(names[1..], lookup).value == lookup(names[1..][i]).1
                   && forall j :: 0 <= j < i ==> !Hit(lookup, names[1..][j]);
          assert Hit(lookup, names[i + 1]);
          forall j | 0 <= j < i + 1 ensures !Hit(lookup, names[j]) {
            if j > 0 {
              assert names[j] == names[1..][j - 1];
            }
          }
        } else {
          forall i | 0 <= i < |names| ensures !Hit(lookup, names[i]) {
            if i > 0 {
              assert names[i] == names[1..][i - 1];
            }
          }
        }
      } else {
        assert Hit(lookup, names[0]);
      }
    }
  }

  /** What `get_mailgun_dns_records(domain, api_key)` returns: the fallback list when the listing step
      raises (the `except` branch) or when no variant hits, and otherwise the first hit's records. */
  function MailgunDnsRecords(domain: string, listReply: Exchange, lookup: string -> (bool, Json)): (r: Json)
    ensures r == FallbackRecords(domain)
            || exists i :: 0 <= i < 4 && Hit(lookup, DomainVariants(domain)[i]) && r == lookup(DomainVariants(domain)[i]).1
  {
    SearchVariantsFirstHit(DomainVariants(domain), lookup);
    if ListingCheck(MailgunClient.ListDomains(listReply)).Raised? then FallbackRecords(domain)
    else
      match SearchVariants(DomainVariants(domain), lookup)
      case Some(records) => records
      case None => FallbackRecords(domain)
  }

  /** `get_mailgun_dns_records(domain, api_key)`. `listReply` is the reply to `list_domains()`, and
      `lookup(name)` is what `get_domain_dns_records(name)` returns, which never raises. */
  method GetMailgunDnsRecords(domain: string, listReply: Exchange, lookup: string -> (bool, Json))
    returns (records: Json)
    ensures records == MailgunDnsRecords(domain, listReply, lookup)
  {
    var listed := MailgunClient.ListDomains(listReply);
    if ListingCheck(listed).Raised? {
      return FallbackRecords(domain);
    }
    var variants := DomainVariants(domain);
    var i := 0;
    while i < |variants|
      invariant 0 <= i <= |variants|
      invariant SearchVariants(variants, lookup) == SearchVariants(variants[i..], lookup)
    {
      assert variants[i..][1..] == variants[i + 1..];
      var (success, found) := lookup(variants[i]);
      if success && Truthy(found) {
        return found;
      }
      i := i + 1;
    }
    return FallbackRecords(domain);
  }

  /** The manual setup page always receives either the fallback list or records that a lookup found;
      it is the fallback list exactly when the listing step raised or no variant hit. */
  lemma MailgunDnsRecordsCases(domain: string, listReply: Exchange, lookup: string -> (bool, Json))
    ensures var r := MailgunDnsRecords(domain, listReply, lookup);
            var names := DomainVariants(domain);
            (ListingCheck(MailgunClient.ListDomains(listReply)).Raised? ==> r == FallbackRecords(domain))
            && (ListingCheck(MailgunClient.ListDomains(listReply)).Ok? ==>
                  ((forall i :: 0 <= i < 4 ==> !Hit(lookup, names[i])) ==> r == FallbackRecords(domain))
                  && forall i :: (0 <= i < 4 && Hit(lookup, names[i]) && (forall j :: 0 <= j < i ==> !Hit(lookup, names[j])))
                                   ==> r == lookup(names[i]).1)
  {
    var names := DomainVariants(domain);
    SearchVariantsFirstHit(names, lookup);
    if ListingCheck(MailgunClient.ListDomains(listReply)).Ok? {
      forall i | 0 <= i < 4 && Hit(lookup, names[i]) && (forall j :: 0 <= j < i ==> !Hit(lookup, names[j]))
        ensures MailgunDnsRecords(domain, listReply, lookup) == lookup(names[i]).1
      {
        var k :| 0 <= k < |names| && Hit(lookup, names[k])
                 && SearchVariants(names, lookup).value == lookup(names[k]).1
                 && forall j :: 0 <= j < k ==> !Hit(lookup, names[j]);
        assert k == i;
      }
    }
  }

  /** With the client as written, every lookup fails, so the manual setup page always shows the
      fallback list, whatever Mailgun would reply. */
  lemma ManualSetupAlwaysFallback(domain: string, c: MailgunClient.Client, listReply: Exchange, replies: string -> Exchange)
    ensures MailgunDnsRecords(domain, listReply, name => MailgunClient.GetDomainDnsRecordsAsWritten(c, replies(name)))
            == FallbackRecords(domain)
  {
    var lookup := name => MailgunClient.GetDomainDnsRecordsAsWritten(c, replies(name));
    var names := DomainVariants(domain);
    forall i | 0 <= i < |names| ensures !Hit(lookup, names[i]) {
      assert lookup(names[i]) == (false, MailgunClient.EmptyDict);
    }
    SearchVariantsFirstHit(names, lookup);
  }

  /** With `get_domain_dns_records` corrected, a successful lookup always hits (its dict has three
      keys), so the page shows the records of the first name whose reply is a records reply. */
  lemma ManualSetupWithCorrectedLookup(domain: string, c: MailgunClient.Client, listReply: Exchange,
                                        replies: string -> Exchange, i: nat)
    requires ListingCheck(MailgunClient.ListDomains(listReply)).Ok?
    requires i < 4 && MailgunClient.RecordsReply(replies(DomainVariants(domain)[i]))
    requires forall j :: 0 <= j < i ==> !MailgunClient.RecordsReply(replies(DomainVariants(domain)[j]))
    ensures MailgunDnsRecords(domain, listReply, name => MailgunClient.GetDomainDnsRecords(c, replies(name)))
            == MailgunClient.GetDomainDnsRecords(c, replies(DomainVariants(domain)[i])).1
  {
    var lookup := name => MailgunClient.GetDomainDnsRecords(c, replies(name));
    var names := DomainVariants(domain);
    forall n ensures Hit(lookup, n) <==> MailgunClient.RecordsReply(replies(n)) {
      CorrectedLookupHits(c, replies(n));
    }
    MailgunDnsRecordsCases(domain, listReply, lookup);
  }

  /** A corrected lookup is truthy exactly when it succeeds, which it does exactly on a records reply. */
  lemma CorrectedLookupHits(c: MailgunClient.Client, x: Exchange)
    ensures var r := MailgunClient.GetDomainDnsRecords(c, x);
            r.0 && Truthy(r.1) <==> MailgunClient.RecordsReply(x)
  {
    var r := MailgunClient.GetDomainDnsRecords(c, x);
    if r.0 {
      assert "mx" in r.1.fields;
    }
  }

  // ---------------------------------------------------------------------------------------------
  // perform_automatic_setup

  /** One entry of `created_records`. */
  datatype Created = Created(record: Json, success: bool, result: Json)

  /** The JSON the endpoint answers with: `{'success': False, 'error': ...}`, or `{'success': True,
      'domain_info': ..., 'dns_records': [...]}`. */
  datatype SetupResponse = Failure(error: string) | Done(domainInfo: Json, created: seq<Created>)

  const CreateFailed := "Failed to create Mailgun domain"
  const FetchFailed := "Failed to get DNS records"

  /** One pass of the creation loop: `record['type']`, `record['name']` and `record['value']`, then
      `create_dns_record` with the default ttl, answered by `reply`. */
  function CreateOne(record: Json, reply: Exchange): (r: Result<Created>)
    ensures r.Ok? ==> r.value.record == record
    ensures r.Ok? ==> record.Dict? && "type" in record.fields && "name" in record.fields && "value" in record.fields
    ensures r.Ok? ==>
              var f := record.fields;
              var out := CloudflareClient.CreateOutcome(f["type"], f["name"], f["value"], CloudflareClient.DefaultTtl, reply);
              out.Ok? && r.value.success == out.value.0 && r.value.result == out.value.1
    ensures r.Ok? <==>
              record.Dict? && "type" in record.fields && "name" in record.fields && "value" in record.fields &&
              CloudflareClient.CreateOutcome(record.fields["type"], record.fields["name"], record.fields["value"],
                                             CloudflareClient.DefaultTtl, reply).Ok?
  {
    var t :- Item(record, "type");
    var n :- Item(record, "name");
    var v :- Item(record, "value");
    var out :- CloudflareClient.CreateOutcome(t, n, v, CloudflareClient.DefaultTtl, reply);
    Ok(Created(record, out.0, out.1))
  }

  /** The pass of each fetched record, record `k` answered by `replies(k)`. */
  function CreatePasses(records: seq<Json>, replies: nat -> Exchange): (passes: seq<Result<Created>>)
    ensures |passes| == |records|
    ensures forall k :: 0 <= k < |records| ==> passes[k] == CreateOne(records[k], replies(k))
  {
    seq(|records|, k requires 0 <= k < |records| => CreateOne(records[k], replies(k)))
  }

  /** The loop over the fetched records: one entry per record, in order, until some record's pass
      raises, which ends the loop with that exception. */
  function CreateEach(records: seq<Json>, replies: nat -> Exchange): (r: Result<seq<Created>>)
    ensures r.Ok? <==> forall k :: 0 <= k < |records| ==> CreateOne(records[k], replies(k)).Ok?
    ensures r.Ok? ==> |r.value| == |records|
                      && forall k :: 0 <= k < |records| ==> CreateOne(records[k], replies(k)) == Ok(r.value[k])
    ensures r.Raised? ==> exists k :: 0 <= k < |records| && CreateOne(records[k], replies(k)) == Raised(r.exc)
                                      && forall j :: 0 <= j < k ==> CreateOne(records[j], replies(j)).Ok?
  {
    Collect(CreatePasses(records, replies))
  }

  /** One pass of the creation loop, as the endpoint runs it: the three subscripts, then the
      `create_dns_record` method. `sent` is the payload posted, if the pass got that far. */
  method CreateRecord(record: Json, reply: Exchange) returns (sent: Option<map<string, Json>>, r: Result<Created>)
    ensures r == CreateOne(record, reply)
    ensures r.Ok? ==> sent.Some?
  {
    sent := None;
    var t := Item(record, "type");
    if t.Raised? {
      return sent, Raised(t.exc);
    }
    var n := Item(record, "name");
    if n.Raised? {
      return sent, Raised(n.exc);
    }
    var v := Item(record, "value");
    if v.Raised? {
      return sent, Raised(v.exc);
    }
    var result;
    sent, result := CloudflareClient.CreateDnsRecord(t.value, n.value, v.value, CloudflareClient.DefaultTtl, reply);
    if result.Raised? {
      return sent, Raised(result.exc);
    }
    r := Ok(Created(record, result.value.0, result.value.1));
  }

  /** What `perform_automatic_setup()` answers for a request naming `domain`. `mailgun(name)` is the
      reply to `create_domain(name)`, `fetch(name)` what `get_domain_dns_records(name)` returns, and
      `replies(k)` the reply to the `k`-th `create_dns_record`. Every exception becomes a failure
      carrying its text. */
  function AutomaticSetup(domain: string, mailgun: string -> Exchange, fetch: string -> (bool, Json),
                          replies: nat -> Exchange): (r: SetupResponse)
    ensures r.Done? ==>
              var mg := MailgunClient.Subdomain(domain);
              var created := MailgunClient.CreateDomain(mailgun(mg));
              && created.Ok? && created.value.0 && r.domainInfo == created.value.1 && fetch(mg).0
              && DictLoop(fetch(mg).1, StrSubscript).Ok? && |r.created| == |DictLoop(fetch(mg).1, StrSubscript).value|
  {
    var mg := MailgunClient.Subdomain(domain);
    match MailgunClient.CreateDomain(mailgun(mg))
    case Raised(e) => Failure(e.message)
    case Ok(created) =>
      if !created.0 then Failure(CreateFailed)
      else if !fetch(mg).0 then Failure(FetchFailed)
      else
        match DictLoop(fetch(mg).1, StrSubscript)
        case Raised(e) => Failure(e.message)
        case Ok(records) =>
          match CreateEach(records, replies)
          case Raised(e) => Failure(e.message)
          case Ok(entries) => Done(created.1, entries)
  }

  /** `perform_automatic_setup()`: creates the `mg.` subdomain, fetches its records and creates each
      record at the DNS host, appending one entry per record to `created_records`. `requested` lists
      the payloads posted to the DNS host, in order. */
  method PerformAutomaticSetup(domain: string, mailgun: string -> Exchange, fetch: string -> (bool, Json),
                               replies: nat -> Exchange)
    returns (response: SetupResponse, requested: seq<map<string, Json>>)
    ensures response == AutomaticSetup(domain, mailgun, fetch, replies)
    ensures response.Done? ==> |requested| == |response.created|
  {
    requested := [];
    var mg := MailgunClient.Subdomain(domain);
    var created := MailgunClient.CreateDomain(mailgun(mg));
    if created.Raised? {
      return Failure(created.exc.message), requested;
    }
    var (success, domainInfo) := created.value;
    if !success {
      return Failure(CreateFailed), requested;
    }
    var (found, dnsRecords) := fetch(mg);
    if !found {
      return Failure(FetchFailed), requested;
    }
    var records := DictLoop(dnsRecords, StrSubscript);
    if records.Raised? {
      return Failure(records.exc.message), requested;
    }
    ghost var passes := CreatePasses(records.value, replies);
    var createdRecords: seq<Created> := [];
    var k := 0;
    while k < |records.value|
      invariant 0 <= k <= |records.value|
      invariant Collect(passes[..k]) == Ok(createdRecords)
      invariant |requested| == k
    {
      var sent, entry := CreateRecord(records.value[k], replies(k));
      assert entry == passes[k];
      if sent.Some? {
        requested := requested + [sent.value];
      }
      if entry.Raised? {
        CollectFirstFailure(passes, k);
        return Failure(entry.exc.message), requested;
      }
      CollectStep(passes, k, createdRecords);
      createdRecords := createdRecords + [entry.value];
      k := k + 1;
    }
    assert passes[..k] == passes;
    return Done(domainInfo, createdRecords), requested;
  }

  /** A failed Mailgun step answers before the DNS host is consulted: the response does not depend on
      the DNS host's replies at all. */
  lemma FailureBeforeCloudflare(domain: string, mailgun: string -> Exchange, fetch: string -> (bool, Json),
                                replies: nat -> Exchange, others: nat -> Exchange)
    requires var mg := MailgunClient.Subdomain(domain);
             var c := MailgunClient.CreateDomain(mailgun(mg));
             c.Raised? || !c.value.0 || !fetch(mg).0
    ensures AutomaticSetup(domain, mailgun, fetch, replies) == AutomaticSetup(domain, mailgun, fetch, others)
    ensures AutomaticSetup(domain, mailgun, fetch, replies).Failure?
  {
  }

  /** With the client as written, the record fetch always fails, so the endpoint never reports
      success: once the domain is created it answers "Failed to get DNS records". */
  lemma AutomaticSetupAsWritten(domain: string, mailgun: string -> Exchange, c: MailgunClient.Client,
                                records: string -> Exchange, replies: nat -> Exchange)
    ensures var r := AutomaticSetup(domain, mailgun, name => MailgunClient.GetDomainDnsRecordsAsWritten(c, records(name)), replies);
            var created := MailgunClient.CreateDomain(mailgun(MailgunClient.Subdomain(domain)));
            r.Failure? && (created.Ok? && created.value.0 ==> r.error == FetchFailed)
  {
    var fetch := name => MailgunClient.GetDomainDnsRecordsAsWritten(c, records(name));
    var mg := MailgunClient.Subdomain(domain);
    assert fetch(mg) == MailgunClient.GetDomainDnsRecordsAsWritten(c, records(mg));
    assert !fetch(mg).0;
  }

  /** With `get_domain_dns_records` corrected the endpoint still never reports success: a successful
      fetch is a dict of three lists, and iterating it yields its str keys, on which `record['type']`
      raises. */
  lemma AutomaticSetupCorrected(domain: string, mailgun: string -> Exchange, c: MailgunClient.Client,
                                records: string -> Exchange, replies: nat -> Exchange)
    ensures var fetch := name => MailgunClient.GetDomainDnsRecords(c, records(name));
            var r := AutomaticSetup(domain, mailgun, fetch, replies);
            var mg := MailgunClient.Subdomain(domain);
            var created := MailgunClient.CreateDomain(mailgun(mg));
            r.Failure?
            && (created.Ok? && created.value.0 && fetch(mg).0 ==> r.error == StrSubscript.message)
  {
    var fetch := name => MailgunClient.GetDomainDnsRecords(c, records(name));
    var mg := MailgunClient.Subdomain(domain);
    assert fetch(mg) == MailgunClient.GetDomainDnsRecords(c, records(mg));
    if fetch(mg).0 {
      assert "mx" in fetch(mg).1.fields;
      assert Truthy(fetch(mg).1);
    }
  }

  /** The loop the endpoint evidently intends, `for record in dns_records['mx'] + dns_records['txt'] +
      dns_records['cname']`: over the records the three lists hold, in that order, rather than over
      the fetched dict's keys. */
  function RecordLists(fetched: Json): Result<seq<Json>>
  {
    var mx :- Item(fetched, "mx");
    var txt :- Item(fetched, "txt");
    var cname :- Item(fetched, "cname");
    var mxTxt :- Add(mx, txt);
    var all :- Add(mxTxt, cname);
    DictLoop(all, StrSubscript)
  }

  /** `perform_automatic_setup()` with its loop over `RecordLists`; every other step as written. */
  function AutomaticSetupFixed(domain: string, mailgun: string -> Exchange, fetch: string -> (bool, Json),
                               replies: nat -> Exchange): SetupResponse
  {
    var mg := MailgunClient.Subdomain(domain);
    match MailgunClient.CreateDomain(mailgun(mg))
    case Raised(e) => Failure(e.message)
    case Ok(created) =>
      if !created.0 then Failure(CreateFailed)
      else if !fetch(mg).0 then Failure(FetchFailed)
      else
        match RecordLists(fetch(mg).1)
        case Raised(e) => Failure(e.message)
        case Ok(records) =>
          match CreateEach(records, replies)
          case Raised(e) => Failure(e.message)
          case Ok(entries) => Done(created.1, entries)
  }

  /** The MX, TXT and CNAME records of a records reply whose three entries are lists, in that order. */
  function InfoRecords(x: Exchange): seq<Json>
    requires MailgunClient.RecordsReply(x)
  {
    var info := x.body.json.fields["domain"].fields;
    var lists := seq(3, k requires 0 <= k < 3 => GetOr(info, MailgunClient.InfoKeys[k], List([])));
    (if lists[0].List? then lists[0].items else []) + (if lists[1].List? then lists[1].items else [])
      + (if lists[2].List? then lists[2].items else [])
  }

  /** With the corrected client and the corrected loop, a created domain whose records reply holds
      three lists is set up exactly when every one of its records is created, and then the answer
      holds one entry per record Mailgun returned, in order. */
  lemma AutomaticSetupFixedCreatesEach(domain: string, mailgun: string -> Exchange, c: MailgunClient.Client,
                                       records: string -> Exchange, replies: nat -> Exchange)
    requires var mg := MailgunClient.Subdomain(domain);
             var created := MailgunClient.CreateDomain(mailgun(mg));
             created.Ok? && created.value.0 && MailgunClient.RecordsReply(records(mg))
             && forall k :: 0 <= k < 3 ==>
                  GetOr(records(mg).body.json.fields["domain"].fields, MailgunClient.InfoKeys[k], List([])).List?
    ensures var mg := MailgunClient.Subdomain(domain);
            var all := InfoRecords(records(mg));
            var r := AutomaticSetupFixed(domain, mailgun, name => MailgunClient.GetDomainDnsRecords(c, records(name)), replies);
            && (r.Done? <==> forall k :: 0 <= k < |all| ==> CreateOne(all[k], replies(k)).Ok?)
            && (r.Done? ==> |r.created| == |all| && forall k :: 0 <= k < |all| ==> r.created[k].record == all[k])
  {
    var fetch := name => MailgunClient.GetDomainDnsRecords(c, records(name));
    var mg := MailgunClient.Subdomain(domain);
    var fetched := MailgunClient.GetDomainDnsRecords(c, records(mg));
    assert fetch(mg) == fetched;
    var info := records(mg).body.json.fields["domain"].fields;
    assert forall k :: 0 <= k < 3 ==> fetched.1.fields[MailgunClient.RecordKeys[k]] == GetOr(info, MailgunClient.InfoKeys[k], List([]));
    assert RecordLists(fetched.1) == Ok(InfoRecords(records(mg)));
  }

  // ---------------------------------------------------------------------------------------------
  // setup

  /** What the `/setup` handler does: render the form (with a flashed error, if any), or redirect to
      the automatic setup with the zone id, or to the manual setup. */
  datatype SetupPage = RenderForm(flash: Option<string>) | ToAutomatic(zoneId: Json) | ToManual

  const AllRequired := "All fields are required"

  /** `all([domain, mailgun_api_key, cloudflare_api_key, cloudflare_email])` over the form's values,
      each None when the field is absent. */
  predicate AllGiven(fields: seq<Option<string>>)
  {
    forall k :: 0 <= k < |fields| ==> fields[k].Some? && fields[k].value != ""
  }

  const ConnectError := "Error connecting to Cloudflare: "

  /** `setup()`. `form` holds the form's domain, Mailgun key, Cloudflare key and Cloudflare email;
      `zones(name)` is the DNS host's reply to `get_zone_id(name)`. */
  function Setup(isPost: bool, form: seq<Option<string>>, zones: string -> Exchange): (p: SetupPage)
    requires |form| == 4
    ensures !isPost ==> p == RenderForm(None)
    ensures isPost && !AllGiven(form) ==> p == RenderForm(Some(AllRequired))
    ensures isPost && AllGiven(form) ==>
              var zone := CloudflareClient.GetZoneId(zones(form[0].value));
              (p.ToAutomatic? <==> zone.Ok? && Truthy(zone.value))
              && (p.ToAutomatic? ==> p.zoneId == zone.value)
              && (p.ToManual? <==> zone.Ok? && !Truthy(zone.value))
              && (zone.Raised? ==> p == RenderForm(Some(ConnectError + zone.exc.message)))
  {
    if !isPost then RenderForm(None)
    else if !AllGiven(form) then RenderForm(Some(AllRequired))
    else
      match CloudflareClient.GetZoneId(zones(form[0].value))
      case Raised(e) => RenderForm(Some(ConnectError + e.message))
      case Ok(zoneId) => if Truthy(zoneId) then ToAutomatic(zoneId) else ToManual
  }

  /** The field check comes first: with any field missing or empty, no zone lookup decides the page. */
  lemma SetupChecksFieldsFirst(form: seq<Option<string>>, zones: string -> Exchange, others: string -> Exchange)
    requires |form| == 4 && !AllGiven(form)
    ensures Setup(true, form, zones) == Setup(true, form, others) == RenderForm(Some(AllRequired))
  {
  }
}
