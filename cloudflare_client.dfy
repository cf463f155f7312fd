/** The DNS-host client of the web application (src/api/cloudflare_client.py). Each method's single
    HTTP exchange is an input; the URL, headers and credentials are not modelled. */
module CloudflareClient {
  import opened PyStr
  import opened Py
  import opened Http

  /** `get_zone_id(zone_name)`: on a 200 reply, the `id` of the first entry of `result`, or None (`Null`)
      when `result` is empty; None on any other status. A malformed body raises. */
  function GetZoneId(x: Exchange): (r: Result<Json>)
    ensures x.Failed? ==> r == Raised(TransportError(x))
    ensures x.Reply? && x.status != 200 ==> r == Ok(Null)
    ensures x.Reply? && x.status == 200 && x.body.Parsed? && x.body.json.Dict? && "result" in x.body.json.fields ==>
              var zones := x.body.json.fields["result"];
              (!Truthy(zones) ==> r == Ok(Null))
              && (zones.List? && zones.items != [] ==> r == Item(zones.items[0], "id"))
    ensures r.Ok? && r.value != Null ==> x.Reply? && x.status == 200
  {
    if x.Failed? then Raised(TransportError(x))
    else if x.status == 200 then
      var data :- JsonOf(x);
      var zones :- Item(data, "result");
      if Truthy(zones) then
        var first :- At(zones, 0);
        Item(first, "id")
      else Ok(Null)
    else Ok(Null)
  }

  /** `check_zone_exists(zone_name)`: whether `get_zone_id` found an id that is not None. */
  function CheckZoneExists(x: Exchange): (r: Result<bool>)
    ensures r.Ok? <==> GetZoneId(x).Ok?
    ensures r.Ok? ==> (r.value <==> GetZoneId(x).value != Null)
    ensures r == Ok(true) ==> x.Reply? && x.status == 200
  {
    var id :- GetZoneId(x);
    Ok(id != Null)
  }

  /** The `ttl` argument's default. */
  const DefaultTtl := Num(1)

  const PayloadKeys := {"type", "name", "content", "ttl"}

  const NoAttributeSplit := "' object has no attribute 'split'"

  /** The JSON payload `create_dns_record` posts: the four arguments under `type`, `name`, `content`
      and `ttl`, and for an MX record whose content holds a space, `priority` and `content` rewritten
      from the content's two parts. Building it raises when MX content is not a str or its first word
      is not an int. */
  function RecordPayload(recordType: Json, name: Json, content: Json, ttl: Json): (r: Result<map<string, Json>>)
    ensures r.Raised? ==> recordType == Str("MX") && (!content.Str? || ' ' in content.s)
  {
    var data := map["type" := recordType, "name" := name, "content" := content, "ttl" := ttl];
    if recordType == Str("MX") then
      if !content.Str? then
        Raised(Exc(AttributeError, "'" + TypeName(content) + NoAttributeSplit))
      else
        match SplitOnce(content.s, ' ')
        case None => Ok(data)
        case Some(parts) =>
          var priority :- ToInt(Str(parts.0));
          Ok(data["priority" := Num(priority)]["content" := Str(parts.1)])
    else Ok(data)
  }

  /** Every payload carries the type, the name and the ttl unchanged. */
  lemma PayloadCopiesFields(recordType: Json, name: Json, content: Json, ttl: Json)
    ensures var r := RecordPayload(recordType, name, content, ttl);
            r.Ok? ==> r.value["type"] == recordType && r.value["name"] == name && r.value["ttl"] == ttl
  {
    if recordType == Str("MX") && content.Str? && SplitOnce(content.s, ' ').Some? {
      MxPayloadRewrite(name, content.s, ttl);
      MxRewriteKeepsFields(name, content.s, ttl);
    } else if recordType != Str("MX") || content.Str? {
      var data := map["type" := recordType, "name" := name, "content" := content, "ttl" := ttl];
      assert RecordPayload(recordType, name, content, ttl) == Ok(data);
    }
  }

  /** The MX rewrite leaves the type, the name and the ttl alone. */
  lemma MxRewriteKeepsFields(name: Json, content: string, ttl: Json)
    requires SplitOnce(content, ' ').Some?
    ensures var r := RecordPayload(Str("MX"), name, Str(content), ttl);
            r.Ok? ==> r.value["type"] == Str("MX") && r.value["name"] == name && r.value["ttl"] == ttl
  {
    MxPayloadRewrite(name, content, ttl);
    var parts := SplitOnce(content, ' ').value;
    var priority := ToInt(Str(parts.0));
    if priority.Ok? {
      PriorityKeepsFields(Str("MX"), name, Str(content), ttl, Num(priority.value), Str(parts.1));
    }
  }

  /** Setting `priority` and rewriting `content` leaves `type`, `name` and `ttl` as they were. */
  lemma PriorityKeepsFields(recordType: Json, name: Json, content: Json, ttl: Json, priority: Json, rest: Json)
    ensures var data := map["type" := recordType, "name" := name, "content" := content, "ttl" := ttl];
            var full := data["priority" := priority]["content" := rest];
            full["type"] == recordType && full["name"] == name && full["ttl"] == ttl
  {
  }

  /** A payload has the four keys, and `priority` besides when MX content was split. */
  lemma PayloadKeySet(recordType: Json, name: Json, content: Json, ttl: Json)
    ensures var r := RecordPayload(recordType, name, content, ttl);
            r.Ok? ==> r.value.Keys - {"priority"} == PayloadKeys
  {
    if recordType == Str("MX") && content.Str? && SplitOnce(content.s, ' ').Some? {
      MxRewriteKeys(name, content.s, ttl);
    } else if recordType != Str("MX") || content.Str? {
      var data := map["type" := recordType, "name" := name, "content" := content, "ttl" := ttl];
      assert data.Keys == PayloadKeys;
      assert RecordPayload(recordType, name, content, ttl) == Ok(data);
    }
  }

  /** The MX rewrite adds `priority` to the four keys. */
  lemma MxRewriteKeys(name: Json, content: string, ttl: Json)
    requires SplitOnce(content, ' ').Some?
    ensures var r := RecordPayload(Str("MX"), name, Str(content), ttl);
            r.Ok? ==> r.value.Keys == PayloadKeys + {"priority"} && "priority" !in PayloadKeys
  {
    MxPayloadRewrite(name, content, ttl);
    var parts := SplitOnce(content, ' ').value;
    var priority := ToInt(Str(parts.0));
    if priority.Ok? {
      var data := map["type" := Str("MX"), "name" := name, "content" := Str(content), "ttl" := ttl];
      assert data.Keys == PayloadKeys;
      PriorityAddsKey(data, Num(priority.value), Str(parts.1));
    }
  }

  /** Setting `priority` and rewriting `content` on a four-key payload adds exactly `priority`. */
  lemma PriorityAddsKey(data: map<string, Json>, priority: Json, content: Json)
    requires data.Keys == PayloadKeys
    ensures data["priority" := priority]["content" := content].Keys == PayloadKeys + {"priority"}
    ensures "priority" !in PayloadKeys
  {
  }

  /** The MX rewrite as a map update of the four-key payload. */
  lemma MxPayloadRewrite(name: Json, content: string, ttl: Json)
    requires SplitOnce(content, ' ').Some?
    ensures var parts := SplitOnce(content, ' ').value;
            var data := map["type" := Str("MX"), "name" := name, "content" := Str(content), "ttl" := ttl];
            var priority := ToInt(Str(parts.0));
            RecordPayload(Str("MX"), name, Str(content), ttl)
              == if priority.Raised? then Raised(priority.exc)
                 else Ok(data["priority" := Num(priority.value)]["content" := Str(parts.1)])
  {
  }

  /** A record that is not MX, or MX content without a space, is posted as given, without a priority. */
  lemma PayloadWithoutPriority(recordType: Json, name: Json, content: Json, ttl: Json)
    requires recordType != Str("MX") || (content.Str? && ' ' !in content.s)
    ensures var r := RecordPayload(recordType, name, content, ttl);
            r.Ok? && "priority" !in r.value && r.value["content"] == content
  {
  }

  /** MX content that is not a str raises before anything is posted. */
  lemma PayloadMxNotStr(name: Json, content: Json, ttl: Json)
    requires !content.Str?
    ensures RecordPayload(Str("MX"), name, content, ttl).Raised?
  {
  }

  /** MX content with a space is cut at its first space: the first word must parse as an int and
      becomes the priority, and the rest becomes the content. */
  lemma PayloadMxSplit(name: Json, content: string, ttl: Json)
    requires ' ' in content
    ensures var parts := SplitOnce(content, ' ').value;
            var r := RecordPayload(Str("MX"), name, Str(content), ttl);
            (r.Ok? <==> ParseInt(parts.0).Some?)
            && (r.Ok? ==> r.value["priority"] == Num(ParseInt(parts.0).value) && r.value["content"] == Str(parts.1))
  {
    MxPayloadRewrite(name, content, ttl);
  }

  /** An MX content written as "<priority> <target>" is taken apart again: the payload carries the
      priority as an int and the target, which may itself contain spaces, as the content. */
  lemma MxContentSplit(name: Json, priority: int, target: string, ttl: Json)
    ensures var p := RecordPayload(Str("MX"), name, Str(IntToString(priority) + " " + target), ttl);
            p.Ok? && p.value["priority"] == Num(priority) && p.value["content"] == Str(target)
  {
    var word := IntToString(priority);
    var content := word + " " + target;
    IntStringNoSpace(word, priority);
    assert content == word + [' '] + target;
    SplitOnceJoin(word, ' ', target);
    assert SplitOnce(content, ' ').value == (word, target);
    ParseIntOfString(priority);
    PayloadMxSplit(name, content, ttl);
  }

  lemma IntStringNoSpace(word: string, priority: int)
    requires word == IntToString(priority)
    ensures ' ' !in word
  {
    PyStr.IntStringNoSpace(priority);
    forall k | 0 <= k < |word| ensures word[k] != ' ' {
      assert !IsSpace(word[k]);
    }
  }

  /** What `create_dns_record` returns: the payload is built first (raising before any request when
      it cannot be), then the reply's success flag is `status == 200` and its second part is the
      decoded body. */
  function CreateOutcome(recordType: Json, name: Json, content: Json, ttl: Json, reply: Exchange): (r: Result<(bool, Json)>)
    ensures r.Ok? ==> RecordPayload(recordType, name, content, ttl).Ok? && reply.Reply?
    ensures r.Ok? ==> (r.value.0 <==> reply.status == 200) && reply.body == Parsed(r.value.1)
    ensures r.Raised? <==> RecordPayload(recordType, name, content, ttl).Raised? || reply.Failed? || reply.body.Unparsable?
  {
    var _ :- RecordPayload(recordType, name, content, ttl);
    if reply.Failed? then Raised(TransportError(reply))
    else
      var body :- JsonOf(reply);
      Ok((reply.status == 200, body))
  }

  /** `create_dns_record(zone_id, record_type, name, content, ttl)`: builds the `data` dict, rewrites
      its MX fields in place, posts it and classifies the reply. `sent` is the payload posted, if any. */
  method CreateDnsRecord(recordType: Json, name: Json, content: Json, ttl: Json, reply: Exchange)
    returns (sent: Option<map<string, Json>>, r: Result<(bool, Json)>)
    ensures sent.Some? <==> RecordPayload(recordType, name, content, ttl).Ok?
    ensures sent.Some? ==> sent.value == RecordPayload(recordType, name, content, ttl).value
    ensures r == CreateOutcome(recordType, name, content, ttl, reply)
  {
    var data := map["type" := recordType, "name" := name, "content" := content, "ttl" := ttl];
    if recordType == Str("MX") {
      if !content.Str? {
        sent := None;
        r := Raised(Exc(AttributeError, "'" + TypeName(content) + NoAttributeSplit));
        return;
      }
      var parts := SplitOnce(content.s, ' ');
      if parts.Some? {
        var priority := ToInt(Str(parts.value.0));
        if priority.Raised? {
          sent := None;
          r := Raised(priority.exc);
          return;
        }
        data := data["priority" := Num(priority.value)];
        data := data["content" := Str(parts.value.1)];
      }
    }
    sent := Some(data);
    if reply.Failed? {
      r := Raised(TransportError(reply));
    } else if reply.body.Unparsable? {
      r := Raised(Exc(JsonDecodeError, reply.body.error));
    } else {
      r := Ok((reply.status == 200, reply.body.json));
    }
  }

  /** `get_dns_records(zone_id)`: the `result` of a 200 reply, and an empty list for any other status. */
  function GetDnsRecords(x: Exchange): (r: Result<Json>)
    ensures x.Failed? ==> r.Raised?
    ensures x.Reply? && x.status != 200 ==> r == Ok(List([]))
    ensures x.Reply? && x.status == 200 ==>
              (r.Ok? <==> x.body.Parsed? && x.body.json.Dict? && "result" in x.body.json.fields)
              && (r.Ok? ==> r.value == x.body.json.fields["result"])
  {
    if x.Failed? then Raised(TransportError(x))
    else if x.status == 200 then
      var data :- JsonOf(x);
      Item(data, "result")
    else Ok(List([]))
  }
}
