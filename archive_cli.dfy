/** The earlier version of the command-line script (archive/create_domain.py). Its input, Mailgun and
    zone helpers are the same as create_domain.py's, so this module reuses them; it differs in how it
    posts the records (incomplete ones are skipped, receiving records are named after the `mg.`
    subdomain and always carry a priority), in its verification report, and in the table it prints
    for manual application. */
module ArchiveCli {
  import opened PyStr
  import opened Py
  import opened Http
  import MailgunClient
  import opened CreateDomainCli

  // ---------------------------------------------------------------------------------------------
  // display_dns_records_table

  /** How many characters of a value the table shows. */
  const ShownChars := 30

  /** What the shortening raises for a list and for a dict longer than 30. */
  const ListPlusStr := "can only concatenate list (not \"str\") to list"
  const SliceOfDict := "unhashable type: 'slice'"

  /** `value[:30] + "..." if len(value) > 30 else value`: a str longer than 30 characters is cut to
      its first 30 followed by "...", any other str is shown whole. `len()` rejects None, bools and
      ints; a list or dict longer than 30 cannot be sliced and extended with a str. */
  function DisplayValue(value: Json): (r: Result<Json>)
    ensures value.Str? ==> r.Ok? && r.value.Str?
    ensures value.Str? && |value.s| <= ShownChars ==> r.value == value
    ensures value.Str? && |value.s| > ShownChars ==>
              |r.value.s| == ShownChars + 3 && r.value.s[..ShownChars] == value.s[..ShownChars]
              && r.value.s[ShownChars..] == "..."
    ensures r.Ok? <==> value.Str? || ((value.List? || value.Dict?) && Len(value).value <= ShownChars)
  {
    var n :- Len(value);
    if n > ShownChars then
      match value
      case Str(s) => Ok(Str(s[..ShownChars] + "..."))
      case List(_) => Raised(Exc(TypeError, ListPlusStr))
      case _ => Raised(Exc(TypeError, SliceOfDict))
    else Ok(value)
  }

  /** The column widths: TYPE, NAME, PRIORITY, VALUE. */
  const TypeWidth := 6
  const NameWidth := 35
  const PriorityWidth := 8
  const ValueWidth := 30

  /** A value a `<w` format spec accepts. */
  predicate Formattable(j: Json)
  {
    j.Str? || j.Num? || j.Bool?
  }

  /** `f"{record_type:<6} {name:<35} {priority:<8} {display_value:<30}"` */
  function Row(recordType: Json, name: Json, priority: Json, shown: Json): (r: Result<string>)
    ensures r.Ok? <==> Formattable(recordType) && Formattable(name) && Formattable(priority) && Formattable(shown)
    ensures r.Ok? ==> |r.value| >= TypeWidth + NameWidth + PriorityWidth + ValueWidth + 3
  {
    var t :- FormatLeft(recordType, TypeWidth);
    var n :- FormatLeft(name, NameWidth);
    var p :- FormatLeft(priority, PriorityWidth);
    var v :- FormatLeft(shown, ValueWidth);
    Ok(t + " " + n + " " + p + " " + v)
  }

  /** With str fields no wider than their columns, each field starts at a fixed column: TYPE at 0,
      NAME at 7, PRIORITY at 43 and VALUE at 52; padding never cuts a field. */
  lemma RowColumns(recordType: string, name: string, priority: string, shown: string)
    requires |recordType| <= TypeWidth && |name| <= NameWidth && |priority| <= PriorityWidth
    ensures var r := Row(Str(recordType), Str(name), Str(priority), Str(shown)).value;
            && r[..|recordType|] == recordType
            && r[7..7 + |name|] == name
            && r[43..43 + |priority|] == priority
            && r[52..52 + |shown|] == shown
  {
    var t, n, p, v := PadRight(recordType, TypeWidth), PadRight(name, NameWidth), PadRight(priority, PriorityWidth), PadRight(shown, ValueWidth);
    assert Row(Str(recordType), Str(name), Str(priority), Str(shown)).value == t + " " + n + " " + p + " " + v;
    PaddedColumns(t, n, p, v);
    assert n[..|name|] == name && p[..|priority|] == priority && v[..|shown|] == shown;
  }

  /** In `t + " " + n + " " + p + " " + v` with fields 6, 35 and 8 wide, `n` starts at 7, `p` at 43
      and `v` at 52. */
  lemma PaddedColumns(t: string, n: string, p: string, v: string)
    requires |t| == TypeWidth && |n| == NameWidth && |p| == PriorityWidth
    ensures var r := t + " " + n + " " + p + " " + v;
            r[..6] == t && r[7..42] == n && r[43..51] == p && r[52..] == v
  {
    var r := t + " " + n + " " + p + " " + v;
    assert r[52..] == v;
    var body := t + " " + n + " " + p;
    assert r[..51] == body;
    assert body[43..51] == p;
    var head := t + " " + n;
    assert body[..42] == head;
    assert head[7..42] == n;
    assert head[..6] == t;
  }

  /** The two record groups of a Mailgun response. Receiving records are named after `mg.<domain>`. */
  datatype Group = Sending | Receiving(subdomain: string)

  /** One row of the table for `record`: its `record_type`, `name` (for a receiving record the
      subdomain instead), `priority` and shortened `value`, each defaulting to "". */
  function TableRow(group: Group, record: Json): (r: Result<string>)
    ensures !record.Dict? ==> r.Raised?
    ensures r.Ok? ==> |r.value| >= TypeWidth + NameWidth + PriorityWidth + ValueWidth + 3
  {
    var recordType :- Get(record, "record_type", Str(""));
    var name := if group.Receiving? then Str(group.subdomain) else GetOr(record.fields, "name", Str(""));
    var value := GetOr(record.fields, "value", Str(""));
    var priority := GetOr(record.fields, "priority", Str(""));
    var shown :- DisplayValue(value);
    Row(recordType, name, priority, shown)
  }

  /** A receiving record's row ignores any name the record carries. */
  lemma ReceivingRowIgnoresName(subdomain: string, fields: map<string, Json>, name: Json)
    ensures TableRow(Receiving(subdomain), Dict(fields)) == TableRow(Receiving(subdomain), Dict(fields["name" := name]))
  {
    OtherFieldsKept(fields, name);
  }

  /** The row of each record of a group, in order. */
  function RowPasses(group: Group, records: seq<Json>): seq<Result<string>>
  {
    seq(|records|, k requires 0 <= k < |records| => TableRow(group, records[k]))
  }

  /** The rows of one group, in order, or the exception of the first record whose row cannot be
      formatted. */
  function Rows(group: Group, records: seq<Json>): Result<seq<string>>
  {
    Collect(RowPasses(group, records))
  }

  /** The rows are printed in full exactly when every record's row can be formatted, and then row `k`
      belongs to record `k`; otherwise the exception is that of the first record that fails. */
  lemma RowsInOrder(group: Group, records: seq<Json>)
    ensures var r := Rows(group, records);
            && (r.Ok? <==> forall k :: 0 <= k < |records| ==> TableRow(group, records[k]).Ok?)
            && (r.Ok? ==> |r.value| == |records|
                          && forall k :: 0 <= k < |records| ==> TableRow(group, records[k]) == Ok(r.value[k]))
            && (r.Raised? ==> exists k :: 0 <= k < |records| && TableRow(group, records[k]) == Raised(r.exc)
                                                && forall j :: 0 <= j < k ==> TableRow(group, records[j]).Ok?)
  {
    var passes := RowPasses(group, records);
    assert forall k :: 0 <= k < |records| ==> passes[k] == TableRow(group, records[k]);
  }

  /** The loop printing one group's rows. */
  method PrintRows(group: Group, records: seq<Json>) returns (r: Result<seq<string>>)
    ensures r == Rows(group, records)
  {
    ghost var passes := RowPasses(group, records);
    var rows: seq<string> := [];
    var k := 0;
    while k < |records|
      invariant 0 <= k <= |records|
      invariant Collect(passes[..k]) == Ok(rows)
    {
      var row := FormatRow(group, records[k]);
      if row.Raised? {
        CollectFirstFailure(passes, k);
        return Raised(row.exc);
      }
      CollectStep(passes, k, rows);
      rows := rows + [row.value];
      k := k + 1;
    }
    assert passes[..k] == passes;
    r := Ok(rows);
  }

  /** The body of the row loop: read the four fields, shorten the value, format the row. `TableRow`
      is its specification. */
  method FormatRow(group: Group, record: Json) returns (r: Result<string>)
    ensures r == TableRow(group, record)
  {
    var recordType := Get(record, "record_type", Str(""));
    if recordType.Raised? {
      return Raised(recordType.exc);
    }
    var name := if group.Receiving? then Str(group.subdomain) else GetOr(record.fields, "name", Str(""));
    var value := GetOr(record.fields, "value", Str(""));
    var priority := GetOr(record.fields, "priority", Str(""));
    var shown := DisplayValue(value);
    if shown.Raised? {
      return Raised(shown.exc);
    }
    r := Row(recordType.value, name, priority, shown.value);
  }

  const Rule := Repeat('=', 80)
  const Dashes := Repeat('-', 80)

  const TableTitle := "DNS RECORDS FOR MANUAL APPLICATION"

  /** The lines printed before the rows: the title between two rules of `=` (the first after an empty
      line), then the column headings, each at the column its values take, and a rule of `-`. */
  function TableHeader(): (h: seq<string>)
    ensures |h| == 5 && h[0] == "\n" + Rule && h[1] == TableTitle && h[2] == Rule && h[4] == Dashes
    ensures |h[3]| >= 57
    ensures h[3][..4] == "TYPE" && h[3][7..11] == "NAME" && h[3][43..51] == "PRIORITY" && h[3][52..57] == "VALUE"
  {
    RowColumns("TYPE", "NAME", "PRIORITY", "VALUE");
    var headings := Row(Str("TYPE"), Str("NAME"), Str("PRIORITY"), Str("VALUE"));
    ["\n" + Rule, TableTitle, Rule, headings.value, Dashes]
  }

  const TableFooter := [
    Dashes,
    "Note: Full record values may be truncated for display. Check the verification",
    "output above for complete values.",
    Rule
  ]

  /** The lines `display_dns_records_table(mailgun_dns_records, domain_name)` prints, one per `print`
      call: header, the sending rows, the receiving rows, footer. A raised result is an exception that
      ends the script; the lines printed before it are not modelled. */
  function Table(response: Json, domain: string): (r: Result<seq<string>>)
    ensures !response.Dict? ==> r.Raised?
  {
    var sending :- Get(response, SendingKey, List([]));
    var sendingRecords :- DictLoop(sending, StrGet);
    var sendingRows :- Rows(Sending, sendingRecords);
    var receiving := GetOr(response.fields, ReceivingKey, List([]));
    var receivingRecords :- DictLoop(receiving, StrGet);
    var receivingRows :- Rows(Receiving(MailgunClient.Subdomain(domain)), receivingRecords);
    Ok(TableHeader() + sendingRows + receivingRows + TableFooter)
  }

  /** For a response holding two lists of records, the table is printed in full exactly when every
      record's row can be formatted, and it is then the header, one row per sending record, one row
      per receiving record (named after the `mg.` subdomain) and the footer, in that order. */
  lemma TableLayout(response: Json, sending: seq<Json>, receiving: seq<Json>, domain: string)
    requires Listed(response, sending, receiving)
    ensures var mg := Receiving(MailgunClient.Subdomain(domain));
            && (Table(response, domain).Ok? <==> Rows(Sending, sending).Ok? && Rows(mg, receiving).Ok?)
            && (Table(response, domain).Ok? ==>
                  Table(response, domain).value == TableHeader() + Rows(Sending, sending).value + Rows(mg, receiving).value + TableFooter)
  {
  }

  /** `display_dns_records_table(mailgun_dns_records, domain_name)` */
  method DisplayDnsRecordsTable(response: Json, domain: string) returns (r: Result<seq<string>>)
    ensures r == Table(response, domain)
  {
    var sending := Get(response, SendingKey, List([]));
    if sending.Raised? {
      return Raised(sending.exc);
    }
    var sendingRecords := DictLoop(sending.value, StrGet);
    if sendingRecords.Raised? {
      return Raised(sendingRecords.exc);
    }
    var sendingRows := PrintRows(Sending, sendingRecords.value);
    if sendingRows.Raised? {
      return Raised(sendingRows.exc);
    }
    var receiving := GetOr(response.fields, ReceivingKey, List([]));
    var receivingRecords := DictLoop(receiving, StrGet);
    if receivingRecords.Raised? {
      return Raised(receivingRecords.exc);
    }
    var receivingRows := PrintRows(Receiving(MailgunClient.Subdomain(domain)), receivingRecords.value);
    if receivingRows.Raised? {
      return Raised(receivingRows.exc);
    }
    r := Ok(TableHeader() + sendingRows.value + receivingRows.value + TableFooter);
  }

  // ---------------------------------------------------------------------------------------------
  // add_dns_records_to_cloudflare

  /** What the loop did with one record: skipped it without a request, or posted a payload. */
  datatype Step = Skipped | Posted(payload: map<string, Json>, outcome: Outcome)

  /** One pass of a group's loop, posting with `reply`. A sending record is skipped unless both its
      name and its value are truthy, and is posted with its type, name and value and the one-hour ttl.
      A receiving record is skipped unless its value is truthy, and is posted under the subdomain,
      with priority `int(priority)` when its priority is truthy and 10 otherwise. */
  function Process(group: Group, record: Json, reply: Exchange): (r: Result<Step>)
    ensures r.Ok? ==> record.Dict?
    ensures r.Ok? && r.value.Posted? ==> r.value.outcome == Classify(reply)
  {
    var recordType :- Get(record, "record_type", Null);
    var value := GetOr(record.fields, "value", Null);
    match group
    case Sending =>
      var name := GetOr(record.fields, "name", Null);
      if !Truthy(name) || !Truthy(value) then Ok(Skipped)
      else Ok(Posted(map["type" := recordType, "name" := name, "content" := value, "ttl" := Ttl], Classify(reply)))
    case Receiving(subdomain) =>
      var priority := GetOr(record.fields, "priority", Null);
      if !Truthy(value) then Ok(Skipped)
      else
        var p :- if Truthy(priority) then ToInt(priority) else Ok(10);
        Ok(Posted(map["type" := recordType, "name" := Str(subdomain), "content" := value,
                      "priority" := Num(p), "ttl" := Ttl], Classify(reply)))
  }

  /** A sending record never raises; it is skipped exactly when its name or its value is missing or
      empty, and is otherwise posted with its type, name and value and the one-hour ttl. */
  lemma ProcessSending(fields: map<string, Json>, reply: Exchange)
    ensures var r := Process(Sending, Dict(fields), reply);
            r.Ok? && (r.value.Skipped? <==> !Truthy(GetOr(fields, "name", Null)) || !Truthy(GetOr(fields, "value", Null)))
            && (r.value.Posted? ==>
                  r.value.payload == map["type" := GetOr(fields, "record_type", Null), "name" := fields["name"],
                                         "content" := fields["value"], "ttl" := Ttl])
  {
  }

  /** A receiving record is skipped exactly when its value is missing or empty; otherwise it is
      posted under the subdomain with priority `int(priority)`, or 10 when the priority is missing
      or empty, and raises exactly when that conversion does. */
  lemma ProcessReceiving(subdomain: string, fields: map<string, Json>, reply: Exchange)
    ensures var r := Process(Receiving(subdomain), Dict(fields), reply);
            var p := GetOr(fields, "priority", Null);
            (r.Ok? <==> !Truthy(GetOr(fields, "value", Null)) || !Truthy(p) || ToInt(p).Ok?)
            && (r.Ok? ==> (r.value.Skipped? <==> !Truthy(GetOr(fields, "value", Null))))
            && (r.Ok? && r.value.Posted? ==>
                  r.value.payload == map["type" := GetOr(fields, "record_type", Null), "name" := Str(subdomain),
                                         "content" := fields["value"],
                                         "priority" := Num(if Truthy(p) then ToInt(p).value else 10),
                                         "ttl" := Ttl])
  {
  }

  /** A skipped record makes no request: its step does not depend on the reply. */
  lemma SkippedMakesNoRequest(group: Group, record: Json, reply: Exchange, other: Exchange)
    requires Process(group, record, reply) == Ok(Skipped)
    ensures Process(group, record, other) == Ok(Skipped)
  {
  }

  /** A receiving record is posted under the subdomain whatever name it carries. */
  lemma ReceivingStepIgnoresName(subdomain: string, fields: map<string, Json>, name: Json, reply: Exchange)
    ensures Process(Receiving(subdomain), Dict(fields), reply) == Process(Receiving(subdomain), Dict(fields["name" := name]), reply)
  {
    OtherFieldsKept(fields, name);
  }

  /** Replacing a record's name leaves the fields a receiving record is read from as they were. */
  lemma OtherFieldsKept(fields: map<string, Json>, name: Json)
    ensures forall key :: key in {"record_type", "value", "priority"} ==>
              GetOr(fields["name" := name], key, Null) == GetOr(fields, key, Null)
              && GetOr(fields["name" := name], key, Str("")) == GetOr(fields, key, Str(""))
  {
  }

  /** The pass of each record of a group, record `k` answered by `replies(k)`. */
  function StepPasses(group: Group, records: seq<Json>, replies: nat -> Exchange): seq<Result<Step>>
  {
    seq(|records|, k requires 0 <= k < |records| => Process(group, records[k], replies(k)))
  }

  /** A group's loop: one step per record, in order, or the exception of the first record whose
      pass raises. */
  function Steps(group: Group, records: seq<Json>, replies: nat -> Exchange): Result<seq<Step>>
  {
    Collect(StepPasses(group, records, replies))
  }

  /** A group's loop completes exactly when every record's pass does, and then step `k` is record
      `k`'s; otherwise the exception is that of the first record whose pass raises. */
  lemma StepsInOrder(group: Group, records: seq<Json>, replies: nat -> Exchange)
    ensures var r := Steps(group, records, replies);
            && (r.Ok? <==> forall k :: 0 <= k < |records| ==> Process(group, records[k], replies(k)).Ok?)
            && (r.Ok? ==> |r.value| == |records|
                          && forall k :: 0 <= k < |records| ==> Process(group, records[k], replies(k)) == Ok(r.value[k]))
            && (r.Raised? ==> exists k :: 0 <= k < |records| && Process(group, records[k], replies(k)) == Raised(r.exc)
                                                && forall j :: 0 <= j < k ==> Process(group, records[j], replies(j)).Ok?)
  {
    var passes := StepPasses(group, records, replies);
    assert forall k :: 0 <= k < |records| ==> passes[k] == Process(group, records[k], replies(k));
  }

  /** One group's `for` loop, `continue`-ing past incomplete records. */
  method ProcessGroup(group: Group, records: seq<Json>, replies: nat -> Exchange) returns (r: Result<seq<Step>>)
    ensures r == Steps(group, records, replies)
  {
    ghost var passes := StepPasses(group, records, replies);
    var steps: seq<Step> := [];
    var k := 0;
    while k < |records|
      invariant 0 <= k <= |records|
      invariant Collect(passes[..k]) == Ok(steps)
    {
      var step := ProcessRecord(group, records[k], replies(k));
      if step.Raised? {
        CollectFirstFailure(passes, k);
        return Raised(step.exc);
      }
      CollectStep(passes, k, steps);
      steps := steps + [step.value];
      k := k + 1;
    }
    assert passes[..k] == passes;
    r := Ok(steps);
  }

  /** The body of a group's loop for one record: skip it, or build its payload and post it. `Process`
      is its specification. */
  method ProcessRecord(group: Group, record: Json, reply: Exchange) returns (r: Result<Step>)
    ensures r == Process(group, record, reply)
  {
    var recordType := Get(record, "record_type", Null);
    if recordType.Raised? {
      return Raised(recordType.exc);
    }
    var value := GetOr(record.fields, "value", Null);
    if group.Sending? {
      var name := GetOr(record.fields, "name", Null);
      if !Truthy(name) || !Truthy(value) {
        return Ok(Skipped);
      }
      var data := map["type" := recordType.value, "name" := name, "content" := value, "ttl" := Ttl];
      r := Ok(Posted(data, Classify(reply)));
    } else {
      var priority := GetOr(record.fields, "priority", Null);
      if !Truthy(value) {
        return Ok(Skipped);
      }
      var p := 10;
      if Truthy(priority) {
        var converted := ToInt(priority);
        if converted.Raised? {
          return Raised(converted.exc);
        }
        p := converted.value;
      }
      var data := map["type" := recordType.value, "name" := Str(group.subdomain), "content" := value,
                      "priority" := Num(p), "ttl" := Ttl];
      r := Ok(Posted(data, Classify(reply)));
    }
  }

  /** `add_dns_records_to_cloudflare(api_key, email, zone_id, mailgun_dns_records, domain_name)`: all
      sending records, then all receiving records; sending record `k` is answered by `replies(k)`,
      receiving record `k` by `replies(n + k)` with `n` the number of sending records. */
  function AddSteps(response: Json, domain: string, replies: nat -> Exchange): (r: Result<seq<Step>>)
    ensures !response.Dict? ==> r.Raised?
  {
    var sending :- Get(response, SendingKey, List([]));
    var receiving := GetOr(response.fields, ReceivingKey, List([]));
    var _ :- Len(sending);
    var sendingRecords :- DictLoop(sending, StrGet);
    var sendingSteps :- Steps(Sending, sendingRecords, replies);
    var _ :- Len(receiving);
    var receivingRecords :- DictLoop(receiving, StrGet);
    var n := |sendingRecords|;
    var receivingSteps :- Steps(Receiving(MailgunClient.Subdomain(domain)), receivingRecords, (k: nat) => replies(n + k));
    Ok(sendingSteps + receivingSteps)
  }

  /** For a response holding two lists of records, all sending records are processed before all
      receiving records, each group in its own order, and the receiving records take the replies
      after the sending ones: the run completes exactly when both groups do, and its steps are the
      sending steps followed by the receiving steps. */
  lemma SendingStepsFirst(response: Json, sending: seq<Json>, receiving: seq<Json>, domain: string,
                          replies: nat -> Exchange)
    requires Listed(response, sending, receiving)
    ensures var mg := Receiving(MailgunClient.Subdomain(domain));
            var shifted := (k: nat) => replies(|sending| + k);
            && (AddSteps(response, domain, replies).Ok? <==> Steps(Sending, sending, replies).Ok? && Steps(mg, receiving, shifted).Ok?)
            && (AddSteps(response, domain, replies).Ok? ==>
                  AddSteps(response, domain, replies).value == Steps(Sending, sending, replies).value + Steps(mg, receiving, shifted).value)
  {
  }

  /** `add_dns_records_to_cloudflare(...)` as the script runs it. */
  method AddDnsRecordsToCloudflare(response: Json, domain: string, replies: nat -> Exchange) returns (r: Result<seq<Step>>)
    ensures r == AddSteps(response, domain, replies)
  {
    var sending := Get(response, SendingKey, List([]));
    if sending.Raised? {
      return Raised(sending.exc);
    }
    var receiving := GetOr(response.fields, ReceivingKey, List([]));
    var count := Len(sending.value);
    if count.Raised? {
      return Raised(count.exc);
    }
    var sendingRecords := DictLoop(sending.value, StrGet);
    if sendingRecords.Raised? {
      return Raised(sendingRecords.exc);
    }
    var sendingSteps := ProcessGroup(Sending, sendingRecords.value, replies);
    if sendingSteps.Raised? {
      return Raised(sendingSteps.exc);
    }
    count := Len(receiving);
    if count.Raised? {
      return Raised(count.exc);
    }
    var receivingRecords := DictLoop(receiving, StrGet);
    if receivingRecords.Raised? {
      return Raised(receivingRecords.exc);
    }
    var n := |sendingRecords.value|;
    var receivingSteps := ProcessGroup(Receiving(MailgunClient.Subdomain(domain)), receivingRecords.value, (k: nat) => replies(n + k));
    if receivingSteps.Raised? {
      return Raised(receivingSteps.exc);
    }
    r := Ok(sendingSteps.value + receivingSteps.value);
  }

  // ---------------------------------------------------------------------------------------------
  // verify_mailgun_domain and main

  /** `verify_mailgun_domain(api_key, domain_name)`: as in create_domain.py, but the report reads the
      decoded reply with `.get`: a reply that is not a dict, a `domain` entry that is not a dict, and
      record entries that are not dicts raise AttributeError, which nothing catches. */
  function ArchiveVerify(x: Exchange): (r: Result<Verification>)
    ensures CheckedJson(x).None? ==> r == Ok(VerifyMailgunDomain(x))
    ensures CheckedJson(x).Some? && r.Ok? ==> r.value == Initiated(x.body.json)
    ensures CheckedJson(x).Some? && !x.body.json.Dict? ==> r.Raised?
  {
    match CheckedJson(x)
    case None => Ok(VerifyMailgunDomain(x))
    case Some(result) =>
      var info :- Get(result, "domain", Dict(map[]));
      var _ :- Get(info, "name", Str("N/A"));
      var sending := GetOr(result.fields, SendingKey, List([]));
      var sendingRecords :- DictLoop(sending, StrGet);
      var _ :- GetFromEach(sendingRecords, "is_active", Null);
      var receiving := GetOr(result.fields, ReceivingKey, List([]));
      var receivingRecords :- DictLoop(receiving, StrGet);
      var _ :- GetFromEach(receivingRecords, "is_active", Null);
      Ok(Initiated(result))
  }

  /** How a run of the archived script ends. */
  datatype ArchiveRun =
    | MailgunFailed
    | ZoneNotFound
    | Completed(steps: seq<Step>, verification: Verification, table: seq<string>)

  /** `main()` after the user's input; the parameters are as for create_domain.py's `main`. */
  function ArchiveMain(domain: string, mailgun: string -> Exchange, details: string -> Exchange,
                       zones: string -> Exchange, replies: nat -> Exchange, verify: string -> Exchange): (r: Result<ArchiveRun>)
    ensures r.Ok? && r.value.Completed? ==>
              var zone := GetCloudflareZoneId(zones(domain));
              CreateMailgunDomain(domain, mailgun, details).Ok? && zone.Ok? && Truthy(zone.value)
  {
    var (mgDomain, response) :- CreateMailgunDomain(domain, mailgun, details);
    if !(mgDomain.Some? && mgDomain.value != "" && Truthy(response)) then Ok(MailgunFailed)
    else
      var zoneId :- GetCloudflareZoneId(zones(domain));
      if !Truthy(zoneId) then Ok(ZoneNotFound)
      else
        var steps :- AddSteps(response, domain, replies);
        var verification :- ArchiveVerify(verify(mgDomain.value));
        var table :- Table(response, domain);
        Ok(Completed(steps, verification, table))
  }

  /** The table is shown only once a zone was found, the records were added and the verification ran:
      a run completes exactly when all of these steps return, and then it carries the table of the
      Mailgun response. */
  lemma ArchiveMainOrder(domain: string, mailgun: string -> Exchange, details: string -> Exchange,
                         zones: string -> Exchange, replies: nat -> Exchange, verify: string -> Exchange)
    ensures var r := ArchiveMain(domain, mailgun, details, zones, replies, verify);
            var c := CreateMailgunDomain(domain, mailgun, details);
            var mg := MailgunClient.Subdomain(domain);
            var zone := GetCloudflareZoneId(zones(domain));
            (r.Ok? && r.value.Completed? <==>
              && c.Ok? && c.value.0.Some? && Truthy(c.value.1)
              && zone.Ok? && Truthy(zone.value)
              && AddSteps(c.value.1, domain, replies).Ok?
              && ArchiveVerify(verify(mg)).Ok?
              && Table(c.value.1, domain).Ok?)
            && (r.Ok? && r.value.Completed? ==>
                  r.value.steps == AddSteps(c.value.1, domain, replies).value
                  && r.value.table == Table(c.value.1, domain).value)
            && ((c.Ok? && c.value.0.Some? && Truthy(c.value.1) && zone.Ok? && Truthy(zone.value)
                 && AddSteps(c.value.1, domain, replies).Raised?) ==> r == Raised(AddSteps(c.value.1, domain, replies).exc))
  {
  }
}
