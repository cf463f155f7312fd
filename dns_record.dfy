/** The DNS record value type (src/models/dns_record.py). */
module DnsRecord {
  import opened PyStr
  import opened Py

  /** `DNSRecord(name, record_type, content)`: the constructor stores its three arguments unchanged,
      the second one as the attribute `type`. A field the caller passed as None is `None`. */
  datatype DNSRecord = DNSRecord(name: Option<string>, recordType: Option<string>, content: Option<string>)

  /** `bool(field)`: present and not the empty str. */
  predicate Given(field: Option<string>)
  {
    field.Some? && field.value != ""
  }

  const MissingFields := Exc(ValueError, "All fields (name, type, content) must be provided.")

  /** `record.validate()`: returns normally exactly when all three fields are given, and raises
      ValueError otherwise. The record is a value, so validation cannot change it. */
  function Validate(r: DNSRecord): (res: Result<()>)
    ensures res.Ok? <==> Given(r.name) && Given(r.recordType) && Given(r.content)
    ensures res.Raised? ==> res.exc == MissingFields
  {
    if !Given(r.name) || !Given(r.recordType) || !Given(r.content) then Raised(MissingFields)
    else Ok(())
  }

  /** A field as an f-string shows it. */
  function Show(field: Option<string>): string
  {
    match field
    case None => "None"
    case Some(s) => s
  }

  const ReprPrefix := "DNSRecord(name="
  const TypeLabel := " type="
  const ContentLabel := " content="

  /** `repr(record)`: the class name, then `name=` and the shown name, and a closing parenthesis. */
  function Repr(r: DNSRecord): (s: string)
    ensures |s| > |ReprPrefix| + |Show(r.name)| && s[..|ReprPrefix|] == ReprPrefix
    ensures s[|ReprPrefix|..|ReprPrefix| + |Show(r.name)|] == Show(r.name) && s[|s| - 1] == ')'
  {
    ReprPrefix + (Show(r.name) + "," + (TypeLabel + Show(r.recordType) + "," + ContentLabel + Show(r.content))) + ")"
  }

  /** Reads the three shown fields back from a repr, cutting at the first comma after `name=` and
      at the first comma after `type=`. */
  function ParseRepr(s: string): Option<(string, string, string)>
  {
    if |s| < |ReprPrefix| + 1 || s[..|ReprPrefix|] != ReprPrefix || s[|s| - 1] != ')' then None
    else
      match SplitOnce(s[|ReprPrefix|..|s| - 1], ',')
      case None => None
      case Some(first) =>
        match ParseTypeAndContent(first.1)
        case None => None
        case Some(other) => Some((first.0, other.0, other.1))
  }

  /** Reads ` type=<type>, content=<content>` back. */
  function ParseTypeAndContent(rest: string): Option<(string, string)>
  {
    if |rest| < |TypeLabel| || rest[..|TypeLabel|] != TypeLabel then None
    else
      match SplitOnce(rest[|TypeLabel|..], ',')
      case None => None
      case Some(second) =>
        var tail := second.1;
        if |tail| < |ContentLabel| || tail[..|ContentLabel|] != ContentLabel then None
        else Some((second.0, tail[|ContentLabel|..]))
  }

  /** The repr shows each field exactly: when neither the name nor the type contains a comma,
      the three shown fields can be read back from it. */
  lemma ReprRoundTrip(r: DNSRecord)
    requires ',' !in Show(r.name) && ',' !in Show(r.recordType)
    ensures ParseRepr(Repr(r)) == Some((Show(r.name), Show(r.recordType), Show(r.content)))
  {
    var n, t, c := Show(r.name), Show(r.recordType), Show(r.content);
    FieldsRoundTrip(n, TypeLabel + t + "," + ContentLabel + c);
    TypeAndContentRoundTrip(t, c);
  }

  lemma FieldsRoundTrip(n: string, rest: string)
    requires ',' !in n
    ensures var m := ParseRepr(ReprPrefix + (n + "," + rest) + ")");
            m.Some? == ParseTypeAndContent(rest).Some?
            && (m.Some? ==> m.value == (n, ParseTypeAndContent(rest).value.0, ParseTypeAndContent(rest).value.1))
  {
    var middle := n + "," + rest;
    var s := ReprPrefix + middle + ")";
    assert s[..|ReprPrefix|] == ReprPrefix;
    assert s[|ReprPrefix|..|s| - 1] == middle;
    SplitOnceJoin(n, ',', rest);
  }

  lemma TypeAndContentRoundTrip(t: string, c: string)
    requires ',' !in t
    ensures ParseTypeAndContent(TypeLabel + t + "," + ContentLabel + c) == Some((t, c))
  {
    var tail := ContentLabel + c;
    var rest := TypeLabel + t + "," + tail;
    assert rest == TypeLabel + t + "," + ContentLabel + c;
    assert rest[..|TypeLabel|] == TypeLabel;
    assert rest[|TypeLabel|..] == t + [','] + tail;
    SplitOnceJoin(t, ',', tail);
    assert tail[..|ContentLabel|] == ContentLabel;
    assert tail[|ContentLabel|..] == c;
  }

  /** A missing field and the str "None" are shown alike, so distinct records can share a repr. */
  lemma ReprConflatesNone(r: DNSRecord)
    requires r.name.None?
    ensures Repr(r) == Repr(r.(name := Some("None"))) && r != r.(name := Some("None"))
  {
  }
}
