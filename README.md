# mg2cf in Dafny

mg2cf sets up a Mailgun sending domain and publishes the DNS records Mailgun asks for in a
Cloudflare zone. It has two front ends. The first is a Flask web application (`src/main.py`), built
on a Cloudflare client, a Mailgun client and a `.env` reader. The second is a command-line script
(`create_domain.py`) together with its earlier version (`archive/create_domain.py`). This project
models, in Dafny, the logic that decides what each of them sends, what it reports and when it stops.

The model covers:

- **The clients** (`cloudflare_client.dfy`, `mailgun_client.dfy`). Each request and its reply are
  one `Http.Exchange`, passed in as an input. The exchange is either a reply (status, text, decoded
  body or decoding error, and the text of the HTTPError `raise_for_status` would raise) or a
  transport failure.
- **The web application** (`web_app.dfy`). This covers the setup form, the automatic-setup endpoint
  with its record-creation loop, and the manual-setup record search with its fallback records.
- **The two scripts** (`create_domain_cli.dfy`, `archive_cli.dfy`). This covers domain creation,
  zone lookup, the record-posting loops with their skip rules, verification, the records table of
  the earlier script, and the gating in both `main`s.
- **The `DNSRecord` model** (`dns_record.dfy`) and **the configuration reader** (`config.dfy`).

Python's side is modelled once and shared:

- `Py.Json` stands for decoded JSON values and dicts.
- `Py.Result` stands for code that may raise. An `Exc` carries the exception's kind and message.
- `Py.Collect` stands for a `for` loop that stops at the first exception.
- `PyStr` holds the `str` operations the code uses: `strip`, `split`, `lower`, `int()` parsing and
  format padding.

Replies to a loop's requests are a function of the record's position. Replies to requests about a
name are a function of that name.

Loops that the source runs step by step are `method`s with loop invariants. Each one is proved equal
to a specification function, and lemmas state what that function means. These methods are:
`Config.LoadConfig`, `WebApp.PerformAutomaticSetup`, `WebApp.GetMailgunDnsRecords`,
`CreateDomainCli.PostEach`, `ArchiveCli.PrintRows` and `ArchiveCli.ProcessGroup`.

## Model

| member | source | states |
|---|---|---|
| `DnsRecord.Validate` | src/models/dns_record.py:7-9 | passes exactly when name, type and content are all given and non-empty; otherwise raises the ValueError with its fixed message |
| `DnsRecord.ReprRoundTrip` | src/models/dns_record.py:12-13 | when name and type hold no comma, the three shown fields can be read back from the repr |
| `DnsRecord.Repr` | src/models/dns_record.py:12-13 | the repr starts with `DNSRecord(name=` followed by the shown name, and ends with `)` |
| `DnsRecord.FieldsRoundTrip` | src/models/dns_record.py:12-13 | reading a repr back: the name is everything up to the first comma, and the rest is read as type and content |
| `DnsRecord.TypeAndContentRoundTrip` | src/models/dns_record.py:12-13 | the `type=...`, `content=...` tail reads back as the type and the content, and the content may hold commas |
| `DnsRecord.ReprConflatesNone` | src/models/dns_record.py:12-13 | a missing name and the name "None" print the same, so two different records share a repr |
| `CloudflareClient.GetZoneId` | src/api/cloudflare_client.py:9-22 | on a 200 reply, the `id` of the first zone, or None when `result` is empty; None for any other status; an id that is not None comes only from a 200; a transport failure raises |
| `CloudflareClient.CheckZoneExists` | src/api/cloudflare_client.py:24-26 | true exactly when `get_zone_id` returns a value other than None, which needs a 200 reply; raises when `get_zone_id` does |
| `CloudflareClient.PayloadCopiesFields` | src/api/cloudflare_client.py:36-48 | every payload carries type, name and ttl unchanged |
| `CloudflareClient.PayloadKeySet` | src/api/cloudflare_client.py:36-48 | a payload has exactly the keys type, name, content and ttl, apart from an optional `priority` |
| `CloudflareClient.PayloadWithoutPriority` | src/api/cloudflare_client.py:36-48 | a record that is not MX, or MX content without a space, is posted as given and without a priority |
| `CloudflareClient.PayloadMxNotStr` | src/api/cloudflare_client.py:44-45 | MX content that is not a str raises before any request is made |
| `CloudflareClient.PayloadMxSplit` | src/api/cloudflare_client.py:44-48 | MX content with a space is cut at its first space; the payload is built exactly when the first word parses as an int, which becomes the priority, and the rest becomes the content |
| `CloudflareClient.MxContentSplit` | src/api/cloudflare_client.py:44-48 | content written as "priority target" is taken apart into that priority and that target, even when the target holds spaces |
| `CloudflareClient.CreateOutcome` | src/api/cloudflare_client.py:28-51 | raises exactly when the payload cannot be built, the request fails or the body is not JSON; otherwise success is `status == 200` and the second part is the decoded body |
| `CloudflareClient.CreateDnsRecord` | src/api/cloudflare_client.py:28-51 | the in-place construction of `data` posts exactly the payload specified, and only when it can be built; it returns the specified outcome |
| `CloudflareClient.RecordPayload` | src/api/cloudflare_client.py:36-48 | building the payload raises only for an MX record whose content is not a str or holds a space (its first word then fails `int()`) |
| `CloudflareClient.GetDnsRecords` | src/api/cloudflare_client.py:53-64 | a 200 reply gives its `result` and raises when there is none; any other status gives []; a transport failure raises |
| `MailgunClient.New` | src/api/mailgun_client.py:5-7 | the client keeps the key, and its base URL is the Mailgun v3 API |
| `MailgunClient.Attribute` | src/api/mailgun_client.py:5-7 | only `api_key` and `base_url` are attributes of a client; any other lookup raises AttributeError |
| `MailgunClient.CreateDomain` | src/api/mailgun_client.py:9-19 | success is `status == 200` and the decoded body comes along; a transport failure or an undecodable body raises |
| `MailgunClient.GetDomain` | src/api/mailgun_client.py:21-35 | succeeds exactly on a decodable 200 reply and returns it whole; otherwise returns a dict holding only `error`, and never raises |
| `MailgunClient.ListDomains` | src/api/mailgun_client.py:37-51 | the same three-way result as `get_domain` |
| `MailgunClient.FetchJson` | src/api/mailgun_client.py:26-35 | the shape `get_domain` and `list_domains` share: `(True, json)` for a decodable 200 reply, otherwise `(False, {"error": …})` with the status text, the decoding error or the transport error |
| `MailgunClient.GetDomainDnsRecordsAsWritten` | src/api/mailgun_client.py:53-91 | as written, the URL reads the missing attribute `api_base`, so every call returns `(False, {})` |
| `MailgunClient.DnsRecordsTryCases` | src/api/mailgun_client.py:56-84 | the `try` body raises for an attribute the client lacks; when it returns, it reports success exactly for a records reply, and a failure carries {} |
| `MailgunClient.GetDomainDnsRecords` | src/api/mailgun_client.py:53-91 | with the URL built from `base_url`: success exactly for a 200 reply whose dict holds a `domain` dict whose three record lists have a length; the result then has exactly the keys mx, txt and cname, each the matching `*_records` entry or []; every failure gives `(False, {})` |
| `MailgunClient.VerifyDomain` | src/api/mailgun_client.py:93-99 | success is `status == 200` and the decoded body comes along; a transport failure or an undecodable body raises |
| `MailgunClient.Subdomain` | src/main.py:109 | the sending domain is the entered domain behind the prefix `mg.` |
| `WebApp.FallbackRecords` | src/main.py:193-226 | five records, each with exactly type, name, value and description, with the listed types and names under `mg.<domain>` |
| `WebApp.FallbackNamesUnderSubdomain` | src/main.py:193-226 | every fallback name ends with `mg.<domain>` |
| `WebApp.FallbackMxPriority` | src/main.py:214-225 | posting either fallback MX record gives priority 10 and the bare mail host as content |
| `WebApp.MxPayload` | src/main.py:214-225 | any MX value "10 host" is posted with priority 10 and content `host` |
| `WebApp.DomainVariants` | src/main.py:168-173 | four names tried in order: the domain as entered, then with `mg.`, `mail.` and `email.` in front; each ends with the domain and each is longer than the one before |
| `WebApp.ListingCheck` | src/main.py:161-165 | the debugging listing passes when listing failed or returned no `items`; with a list of items, it passes exactly when every item is a dict (the loop calls `.get` on each) |
| `WebApp.SearchVariantsFirstHit` | src/main.py:175-186 | the search finds records exactly when some name's lookup succeeds with a truthy result, and it returns the first such name's records |
| `WebApp.GetMailgunDnsRecords` | src/main.py:155-191 | the step-by-step search returns what the specification says |
| `WebApp.MailgunDnsRecords` | src/main.py:155-191 | the records returned are the fallback list, or the records of a name variant whose lookup succeeded with a truthy result |
| `WebApp.MailgunDnsRecordsCases` | src/main.py:155-191 | the page gets the fallback records when the listing raised or no variant hit, and otherwise the records of the first variant that hit |
| `WebApp.ManualSetupAlwaysFallback` | src/main.py:175-186 | with the client as written, the manual page always shows the fallback records |
| `WebApp.ManualSetupWithCorrectedLookup` | src/main.py:175-186 | with the corrected client, the page shows the records of the first variant whose reply is a records reply |
| `WebApp.CorrectedLookupHits` | src/main.py:179-181 | a corrected lookup counts as a hit exactly when its reply is a records reply |
| `WebApp.CreateOne` | src/main.py:123-134 | gives an entry exactly when the record is a dict with type, name and value and the Cloudflare call for those fields with ttl 1 returns; the entry keeps the record and carries that outcome |
| `WebApp.CreateEach` | src/main.py:122-134 | the loop completes exactly when every record's pass does, and then entry k belongs to record k; otherwise the first failing record's exception propagates |
| `WebApp.CreateRecord` | src/main.py:124-134 | one pass of the loop matches the specification, and a completed pass has sent a request |
| `WebApp.PerformAutomaticSetup` | src/main.py:94-143 | the endpoint's response matches the specification, and a success made one request per created entry |
| `WebApp.AutomaticSetup` | src/main.py:94-143 | a success answer means the `mg.` domain was created, carries its domain info, and the records fetch succeeded; it holds one created entry per fetched record |
| `WebApp.FailureBeforeCloudflare` | src/main.py:110-119 | when domain creation fails or the records cannot be fetched, the answer is a failure and no Cloudflare reply matters |
| `WebApp.AutomaticSetupAsWritten` | src/main.py:110-119 | with the client as written, automatic setup always fails, and after a successful creation it reports "Failed to get DNS records" |
| `WebApp.AutomaticSetupCorrected` | src/main.py:116-134 | with the corrected client it still always fails: looping over the returned dict yields key strings, and `record['type']` on a str raises TypeError |
| `WebApp.AutomaticSetupFixedCreatesEach` | src/main.py:123-134 | with the loop over the records in the `mx`, `txt` and `cname` lists, a created domain is set up exactly when each of its records is created, with one entry per record Mailgun returned, in order |
| `WebApp.Setup` | src/main.py:41-76 | GET renders the form; a POST with a missing field flashes "All fields are required"; otherwise a truthy zone id redirects to automatic setup with that id, a falsy one goes to manual setup, and an exception flashes the Cloudflare connection error |
| `WebApp.SetupChecksFieldsFirst` | src/main.py:49-51 | a POST with a missing field never contacts Cloudflare |
| `CreateDomainCli.GetMailgunDomainDetails` | create_domain.py:38-55 | None after an HTTP or network error; otherwise the `domain` entry of the decoded reply (None when absent), raising when the reply is not a dict |
| `CreateDomainCli.AlreadyExistsAnyCase` | create_domain.py:74 | the error counts as "already exists" exactly when the phrase occurs in it in any letter case |
| `CreateDomainCli.CreateMailgunDomain` | create_domain.py:57-84 | on success, `mg.<domain>` and the decoded reply; on an "already exists" error, `mg.<domain>` and its fetched details; on any other error, a network failure or an undecodable reply, `(None, None)` |
| `CreateDomainCli.GetCloudflareZoneId` | create_domain.py:87-115 | None after an error, or when `result` is missing or empty; otherwise the first zone's `id`; a reply that is not a dict raises |
| `CreateDomainCli.Classify` | create_domain.py:150-165 | a record is added on a non-error status, reported as present on an "already exists" HTTP error, and reported as a network failure when the request failed |
| `CreateDomainCli.PayloadFields` | create_domain.py:131-148 | the payload holds type, name, content from `value`, and ttl 3600; an MX record also gets `int(priority)` with default 10, and the payload is built exactly when that conversion succeeds |
| `CreateDomainCli.Payload` | create_domain.py:131-148 | a record that is not a dict raises; otherwise only an MX record can raise, at `int(priority)` |
| `CreateDomainCli.PayloadNeedsDict` | create_domain.py:131-134 | a record that is not a dict raises |
| `CreateDomainCli.RecordsToAdd` | create_domain.py:129 | sending records followed by receiving records, each defaulting to []; a response that is not a dict raises |
| `CreateDomainCli.RecordsToAddOperands` | create_domain.py:129-131 | adding a list to a non-list raises Python's TypeError naming the other operand's type; two ints add up, and the loop then raises "'int' object is not iterable" |
| `CreateDomainCli.Pass` | create_domain.py:131-165 | a pass completes exactly when the payload can be built, and then carries that payload and the classified reply |
| `CreateDomainCli.AddAll` | create_domain.py:131-165 | the loop completes exactly when every pass does, and then attempt k is record k's; otherwise the first failing pass's exception propagates |
| `CreateDomainCli.AddDnsRecordsToCloudflare` | create_domain.py:117-165 | the function's outcome matches the specification |
| `CreateDomainCli.PostEach` | create_domain.py:131-165 | the step-by-step loop matches the specification |
| `CreateDomainCli.PostOne` | create_domain.py:131-165 | one iteration of the loop body matches one pass |
| `CreateDomainCli.BuildPayload` | create_domain.py:137-148 | the in-place construction of `data` gives the specified payload |
| `CreateDomainCli.SendingBeforeReceiving` | create_domain.py:129-131 | sending records are posted before receiving ones, each group in its own order |
| `CreateDomainCli.VerifyMailgunDomain` | create_domain.py:168-185 | verification starts exactly on a non-error, decodable reply and carries that reply; an HTTP error is reported as such |
| `CreateDomainCli.MainGating` | create_domain.py:188-200 | records are added exactly when a subdomain and a truthy response came back, a truthy zone id was found and adding completed; verification then follows |
| `CreateDomainCli.Main` | create_domain.py:188-200 | records are posted only after the Mailgun step returned and the zone lookup found a truthy zone id |
| `CreateDomainCli.GateClosedPostsNothing` | create_domain.py:194-200 | when the gate stays closed, no Cloudflare reply and no verification reply affects the run |
| `ArchiveCli.DisplayValue` | archive/create_domain.py:135 | a str longer than 30 characters is cut to its first 30 followed by "...", and any other str is shown whole; values without a length raise, and so does a list or dict longer than 30 |
| `ArchiveCli.Row` | archive/create_domain.py:136 | a row can be formatted exactly when all four values are str, int or bool, and it is at least as wide as the four columns |
| `ArchiveCli.RowColumns` | archive/create_domain.py:124-136 | fields that fit their columns start at columns 0, 7, 43 and 52 and are never cut |
| `ArchiveCli.ReceivingRowIgnoresName` | archive/create_domain.py:139-147 | a receiving record's row ignores the record's own name |
| `ArchiveCli.RowsInOrder` | archive/create_domain.py:128-147 | the rows print in full exactly when each record's row can be formatted, and row k belongs to record k; otherwise the first failing record's exception propagates |
| `ArchiveCli.PrintRows` | archive/create_domain.py:128-136 | the step-by-step row loop matches the specification |
| `ArchiveCli.FormatRow` | archive/create_domain.py:129-136 | one iteration of the loop body matches the specified row |
| `ArchiveCli.TableRow` | archive/create_domain.py:129-136 | a record that is not a dict raises; a formatted row is at least as wide as the four columns and their separators |
| `ArchiveCli.TableHeader` | archive/create_domain.py:121-125 | the header is the title between two rules of 80 `=` (the first after an empty line), the headings TYPE, NAME, PRIORITY and VALUE at columns 0, 7, 43 and 52, and a rule of 80 `-` |
| `ArchiveCli.Table` | archive/create_domain.py:117-152 | a response that is not a dict raises |
| `ArchiveCli.TableLayout` | archive/create_domain.py:117-152 | for a response with two record lists, the table prints exactly when both groups' rows do, and it is header, sending rows, receiving rows, footer |
| `ArchiveCli.DisplayDnsRecordsTable` | archive/create_domain.py:117-152 | the step-by-step printing matches the specified table |
| `ArchiveCli.Process` | archive/create_domain.py:170-242 | a completed pass needs a dict record, and a posted record's outcome is its classified reply |
| `ArchiveCli.ProcessSending` | archive/create_domain.py:170-203 | a sending record is skipped exactly when its name or value is falsy; otherwise it is posted with type, name, content from `value`, and ttl 3600 |
| `ArchiveCli.ProcessReceiving` | archive/create_domain.py:206-242 | a receiving record is skipped exactly when its value is falsy; otherwise it is posted under `mg.<domain>` with `int(priority)`, or 10 when priority is falsy, and fails exactly when that conversion fails |
| `ArchiveCli.SkippedMakesNoRequest` | archive/create_domain.py:175-215 | a skipped record's outcome does not depend on any reply |
| `ArchiveCli.ReceivingStepIgnoresName` | archive/create_domain.py:206-224 | a receiving record's pass ignores the record's own name |
| `ArchiveCli.StepsInOrder` | archive/create_domain.py:170-242 | a group's loop completes exactly when every record's pass does, and then step k is record k's; otherwise the first failing pass's exception propagates |
| `ArchiveCli.ProcessGroup` | archive/create_domain.py:166-242 | the step-by-step loop over one group matches the specification |
| `ArchiveCli.ProcessRecord` | archive/create_domain.py:171-242 | one iteration of the loop body matches one pass |
| `ArchiveCli.AddSteps` | archive/create_domain.py:154-242 | a response that is not a dict raises |
| `ArchiveCli.SendingStepsFirst` | archive/create_domain.py:166-242 | for a response with two record lists, the sending loop completes first; the receiving loop gets the replies after it; the steps are the two groups' steps in order |
| `ArchiveCli.AddDnsRecordsToCloudflare` | archive/create_domain.py:154-242 | the function's outcome matches the specification |
| `ArchiveCli.ArchiveVerify` | archive/create_domain.py:245-295 | error replies are reported as in create_domain.py; a started verification carries the reply; a reply that is not a dict raises in the report |
| `ArchiveCli.ArchiveMainOrder` | archive/create_domain.py:298-331 | a run completes exactly when the gates open and adding, verifying and the table all return; it then carries the steps and the table; an exception while adding propagates |
| `ArchiveCli.ArchiveMain` | archive/create_domain.py:298-331 | a run completes only after the Mailgun step returned and the zone lookup found a truthy zone id |
| `Config.Entry` | src/utils/config.py:7-8 | a line is skipped exactly when it is blank or its first character is `#`; it raises exactly when it is read and holds no `=` |
| `Config.EntryCutsAtFirstEquals` | src/utils/config.py:8 | an assignment cuts the stripped line at its first `=`, and key, `=` and value give the stripped line back |
| `Config.LoadConfig` | src/utils/config.py:1-12 | a missing file gives {}; otherwise the loop that updates the dict in place builds what `Parse` specifies |
| `Config.BuildRaisedPrefix` | src/utils/config.py:5-11 | after a line raises, later lines do not matter |
| `Config.BuildFails` | src/utils/config.py:6-11 | building fails exactly when some line's effect is an exception |
| `Config.BuildKeys` | src/utils/config.py:6-9 | the keys are exactly those some line sets |
| `Config.BuildLastWins` | src/utils/config.py:6-9 | the last line setting a key decides its value |
| `Config.ParseFails` | src/utils/config.py:4-11 | reading fails exactly when some line is malformed, that is not skipped and without `=` |
| `Config.Parse` | src/utils/config.py:6-9 | the dict read from the lines has at most one key per line |
| `Config.BuildSize` | src/utils/config.py:6-9 | a dict built from line effects has at most one key per effect |
| `Config.ParseKeys` | src/utils/config.py:6-9 | when no line is malformed, reading succeeds and the dict's keys are exactly those assigned by some line |
| `Config.LastAssignmentWins` | src/utils/config.py:9 | when no line is malformed, the last line assigning a repeated key decides its value |
| `Config.IndentedCommentRead` | src/utils/config.py:7 | an indented comment is not skipped, and it raises exactly when it holds no `=` |
| `Config.AssignmentLine` | src/utils/config.py:7-9 | a line `key=value` reads back as that key and that value, even when the value holds further `=` |
| `Config.GetApiKeys` | src/utils/config.py:14-20 | exactly the three credential keys, each with its configured value, or None when absent |
| `Config.ApiKeyFromLines` | src/utils/config.py:14-20 | a credential read from a file is the value of the last line assigning it |
| `Config.ApiKeyAbsent` | src/utils/config.py:14-20 | a credential no line assigns is None |

## Left out

- Input and output are not modelled. That covers printing, `input()` (`get_user_input`), flashing
  and templates. Output printed before an exception is not modelled either; the model gives the
  outcome only.
- Flask routing, request parsing, redirects and the secret-key set-up in `src/main.py` are left out.
  The form fields and the JSON request's fields are inputs. The request's `domain` is taken to be a
  str.
- URLs, headers, credentials and the `smtp_password` sent by `create_domain` are not modelled. Each
  request's reply is an input.
- The text of an HTTPError is an input (`errorText`). `requests` builds it from the status and the
  reason.
- JSON floats are not modelled. `int()` parsing covers ASCII digits with sign, surrounding white
  space and underscores. `lower()` folds ASCII letters only.
- A Python dict's key order is not modelled. Iterating over a str or a dict inside a loop whose body
  calls `.get` or subscripts a str is modelled as: no effect when empty, otherwise the first
  element's operation raises. The message does not depend on which key comes first.
- Exception messages follow CPython 3.11 where the model states them. Some are approximated: the
  ValueError of `int()` does not reproduce Python's repr quoting of every string.
- `archive/create_domain.py`:1-115 repeats `create_domain.py`'s input, Mailgun and zone helpers line
  for line. `ArchiveCli` reuses `CreateDomainCli`'s models of them.
- The verification reports of both scripts (`verify_mailgun_domain`) are modelled as their
  outcomes. What they print is not modelled; the exceptions the archived version's `.get` calls can
  raise are.
- `get_mailgun_dns_records` and `get_domain_dns_records` print debugging text that can raise. The
  model keeps those exceptions: `ListingCheck`, and the `keys()` and `len()` calls in
  `DnsRecordsTry`. The printed text itself is not modelled.
- `load_config` models only the missing-file case of `open` failing. Other OS errors and file
  encodings are not modelled. The file is given as its lines.
- `tests/test_main.py` is not part of this model.
- PyStr.ParseInt: does not model CPython's limit on the length of an integer string (4300 digits by
  default, since 3.11). Python's `int()` raises ValueError on a longer digit string, but the model
  parses it. `CloudflareClient.RecordPayload`, `CreateDomainCli.Payload` and
  `ArchiveCli.ProcessReceiving` therefore build a payload where Python would raise: for example, MX
  content of 4301 ones followed by " mx.example.com".
- Py.IsRequestException: counts JSONDecodeError as a `requests.exceptions.RequestException`, which
  holds for `requests` 2.27 and later. With an older `requests`, an undecodable body would escape
  the scripts' `except RequestException` clauses and end the script, where the model reports a
  network failure.
- DnsRecord.DNSRecord: the fields are str or None. The Python class stores any value, and
  `validate` and `__repr__` then apply that value's truthiness and `str()` (for example to `0` or a
  list). Other values are not modelled.

## Findings

| source | as written | input that shows it | evidently intended | confidence | as-written member | corrected member |
|---|---|---|---|---|---|---|
| src/api/mailgun_client.py:58 | the URL is built from `self.api_base`, which `__init__` never sets; the AttributeError is caught by the generic `except`, so the method always returns `(False, {})` | any client and any Mailgun reply, for example a 200 reply whose `domain` dict holds `mx_records` | build the URL from `self.base_url`, so that a records reply returns `(True, {mx, txt, cname})` | high (not executed) | `MailgunClient.GetDomainDnsRecordsAsWritten` | `MailgunClient.GetDomainDnsRecords` |
| src/main.py:123 | `for record in dns_records` iterates over the dict `{mx, txt, cname}` that `get_domain_dns_records` returns, so `record` is a key str and `record['type']` raises TypeError; the endpoint fails whenever the records fetch succeeds | a corrected client, a 200 create reply and a records reply with any `domain` dict | loop over the records held in the `mx`, `txt` and `cname` lists | high (not executed) | `WebApp.AutomaticSetupCorrected` | `WebApp.AutomaticSetupFixedCreatesEach` |
