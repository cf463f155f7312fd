/** Python values as `json.loads` produces them, Python exceptions, and the built-in operations on
    values that the mg2cf code performs (`x[k]`, `x.get(k, d)`, `k in x`, `len(x)`, `int(x)`, `a + b`,
    truth tests and `for` loops). */
module Py {
  import opened PyStr

  /** None, bool, int, str, list and dict. A dict is keyed by str, as JSON objects are. */
  datatype Json =
    | Null
    | Bool(b: bool)
    | Num(n: int)
    | Str(s: string)
    | List(items: seq<Json>)
    | Dict(fields: map<string, Json>)

  datatype ExcKind =
    | KeyError
    | IndexError
    | TypeError
    | ValueError
    | AttributeError
    | HttpError         // requests.exceptions.HTTPError
    | RequestException  // any other requests.exceptions.RequestException raised by the transport
    | JsonDecodeError   // requests.exceptions.JSONDecodeError, raised by `response.json()`

  /** A raised exception; `message` is what `str(e)` gives. */
  datatype Exc = Exc(kind: ExcKind, message: string)

  /** The outcome of Python code that may raise. */
  datatype Result<+T> = Ok(value: T) | Raised(exc: Exc) {
    predicate IsFailure() {
      Raised?
    }

    function PropagateFailure<U>(): Result<U>
      requires Raised?
    {
      Raised(exc)
    }

    function Extract(): T
      requires Ok?
    {
      value
    }
  }

  /** What `except requests.exceptions.RequestException` catches (JSONDecodeError derives from it). */
  predicate IsRequestException(e: Exc)
  {
    e.kind == HttpError || e.kind == RequestException || e.kind == JsonDecodeError
  }

  /** `bool(j)` */
  predicate Truthy(j: Json)
  {
    match j
    case Null => false
    case Bool(b) => b
    case Num(n) => n != 0
    case Str(s) => s != ""
    case List(items) => items != []
    case Dict(fields) => fields != map[]
  }

  /** `type(j).__name__` */
  function TypeName(j: Json): string
  {
    match j
    case Null => "NoneType"
    case Bool(_) => "bool"
    case Num(_) => "int"
    case Str(_) => "str"
    case List(_) => "list"
    case Dict(_) => "dict"
  }

  /** Messages of the exceptions the built-in operations raise, as `str(e)` shows them (around the
      offending key, type name or literal). */
  const ListIndexedByStr := "list indices must be integers or slices, not str"
  const StrIndexedByStr := "string indices must be integers, not 'str'"
  const NotSubscriptable := "' object is not subscriptable"
  const ListIndexOutOfRange := "list index out of range"
  const StrIndexOutOfRange := "string index out of range"
  const NoAttributeGet := "' object has no attribute 'get'"
  const NoAttributeKeys := "' object has no attribute 'keys'"
  const ArgumentOfType := "argument of type '"
  const IsNotIterable := "' is not iterable"
  const ObjectOfType := "object of type '"
  const HasNoLen := "' has no len()"
  const InvalidLiteral := "invalid literal for int() with base 10: '"
  const IntArgument := "int() argument must be a string, a bytes-like object or a real number, not '"
  const UnsupportedAdd := "unsupported operand type(s) for +: '"
  const CanOnlyConcatenate := "can only concatenate "
  const ObjectNotIterable := "' object is not iterable"
  const UnsupportedFormat := "unsupported format string passed to "

  /** `x[key]` for a str key. */
  function Item(x: Json, key: string): (r: Result<Json>)
    ensures r.Ok? <==> x.Dict? && key in x.fields
    ensures r.Ok? ==> r.value == x.fields[key]
  {
    match x
    case Dict(fields) =>
      if key in fields then Ok(fields[key]) else Raised(Exc(KeyError, "'" + key + "'"))
    case List(_) => Raised(Exc(TypeError, ListIndexedByStr))
    case Str(_) => Raised(Exc(TypeError, StrIndexedByStr))
    case _ => Raised(Exc(TypeError, "'" + TypeName(x) + NotSubscriptable))
  }

  /** `x[i]` for an int index; negative indexes count from the end. */
  function At(x: Json, i: int): (r: Result<Json>)
    ensures x.List? && 0 <= i < |x.items| ==> r == Ok(x.items[i])
    ensures x.List? && x.items == [] ==> r.Raised? && r.exc.kind == IndexError
  {
    match x
    case List(items) =>
      if -|items| <= i < |items| then Ok(items[if i < 0 then i + |items| else i])
      else Raised(Exc(IndexError, ListIndexOutOfRange))
    case Str(s) =>
      if -|s| <= i < |s| then Ok(Str([s[if i < 0 then i + |s| else i]]))
      else Raised(Exc(IndexError, StrIndexOutOfRange))
    case Dict(_) => Raised(Exc(KeyError, IntToString(i)))
    case _ => Raised(Exc(TypeError, "'" + TypeName(x) + NotSubscriptable))
  }

  /** `d.get(key, default)` for a dict `d`. */
  function GetOr(fields: map<string, Json>, key: string, default: Json): (r: Json)
    ensures key in fields ==> r == fields[key]
    ensures key !in fields ==> r == default
  {
    if key in fields then fields[key] else default
  }

  /** `x.get(key, default)`; only a dict has `get`. */
  function Get(x: Json, key: string, default: Json): (r: Result<Json>)
    ensures r.Ok? <==> x.Dict?
    ensures r.Ok? ==> r.value == GetOr(x.fields, key, default)
  {
    match x
    case Dict(fields) => Ok(GetOr(fields, key, default))
    case _ => Raised(Exc(AttributeError, "'" + TypeName(x) + NoAttributeGet))
  }

  /** `x.keys()`; only a dict has `keys`. */
  function Keys(x: Json): (r: Result<set<string>>)
    ensures r.Ok? <==> x.Dict?
  {
    match x
    case Dict(fields) => Ok(fields.Keys)
    case _ => Raised(Exc(AttributeError, "'" + TypeName(x) + NoAttributeKeys))
  }

  /** `item in x` for a str item: a key of a dict, an element of a list, a substring of a str. */
  function In(item: string, x: Json): (r: Result<bool>)
    ensures x.Dict? ==> r == Ok(item in x.fields)
    ensures r.Ok? <==> x.Dict? || x.List? || x.Str?
  {
    match x
    case Dict(fields) => Ok(item in fields)
    case List(items) => Ok(Str(item) in items)
    case Str(s) => Ok(PyStr.Contains(s, item))
    case _ => Raised(Exc(TypeError, ArgumentOfType + TypeName(x) + IsNotIterable))
  }

  /** `len(x)` */
  function Len(x: Json): (r: Result<nat>)
    ensures r.Ok? <==> x.Str? || x.List? || x.Dict?
  {
    match x
    case Str(s) => Ok(|s|)
    case List(items) => Ok(|items|)
    case Dict(fields) => Ok(|fields|)
    case _ => Raised(Exc(TypeError, ObjectOfType + TypeName(x) + HasNoLen))
  }

  /** `int(x)`: an int is kept, a bool counts as 0 or 1, a str is parsed. */
  function ToInt(x: Json): (r: Result<int>)
    ensures x.Num? ==> r == Ok(x.n)
    ensures x.Str? ==> (r.Ok? <==> ParseInt(x.s).Some?)
    ensures x.Str? && r.Ok? ==> r.value == ParseInt(x.s).value
  {
    match x
    case Num(n) => Ok(n)
    case Bool(b) => Ok(if b then 1 else 0)
    case Str(s) =>
      (match ParseInt(s)
       case Some(n) => Ok(n)
       case None => Raised(Exc(ValueError, InvalidLiteral + s + "'")))
    case _ =>
      Raised(Exc(TypeError, IntArgument + TypeName(x) + "'"))
  }

  /** An int, or a bool, which Python's arithmetic treats as the int 0 or 1. */
  predicate IntLike(j: Json)
  {
    j.Num? || j.Bool?
  }

  function IntValue(j: Json): int
    requires IntLike(j)
  {
    if j.Num? then j.n else if j.b then 1 else 0
  }

  /** `a + b`: two lists or two strs concatenate, two ints or bools add. Any other pair raises
      TypeError: a list or a str on the left names the right operand's type in its own message, and
      every other left operand gives the "unsupported operand" message. */
  function Add(a: Json, b: Json): (r: Result<Json>)
    ensures a.List? && b.List? ==> r == Ok(List(a.items + b.items))
    ensures a.Str? && b.Str? ==> r == Ok(Str(a.s + b.s))
    ensures IntLike(a) && IntLike(b) ==> r == Ok(Num(IntValue(a) + IntValue(b)))
    ensures r.Ok? <==> (a.List? && b.List?) || (a.Str? && b.Str?) || (IntLike(a) && IntLike(b))
    ensures r.Raised? ==> r.exc.kind == TypeError
    ensures a.List? && !b.List? ==> r == Raised(Exc(TypeError, CanOnlyConcatenate + "list (not \"" + TypeName(b) + "\") to list"))
    ensures a.Str? && !b.Str? ==> r == Raised(Exc(TypeError, CanOnlyConcatenate + "str (not \"" + TypeName(b) + "\") to str"))
  {
    if a.List? then
      if b.List? then Ok(List(a.items + b.items))
      else Raised(Exc(TypeError, CanOnlyConcatenate + "list (not \"" + TypeName(b) + "\") to list"))
    else if a.Str? then
      if b.Str? then Ok(Str(a.s + b.s))
      else Raised(Exc(TypeError, CanOnlyConcatenate + "str (not \"" + TypeName(b) + "\") to str"))
    else if IntLike(a) && IntLike(b) then Ok(Num(IntValue(a) + IntValue(b)))
    else Raised(Exc(TypeError, UnsupportedAdd + TypeName(a) + "' and '" + TypeName(b) + "'"))
  }

  /** The elements a `for` loop over `x` visits, for a loop whose body starts by using the element
      as a dict (`element[...]` or `element.get(...)`); `misuse` is what that first use raises on a str.
      A list yields its items. A str yields one-character strs and a dict yields its keys, which are
      strs as well, so a non-empty str or dict makes the body raise `misuse` on its first element,
      whichever element that is. Other values are not iterable. */
  function DictLoop(x: Json, misuse: Exc): (r: Result<seq<Json>>)
    ensures x.List? ==> r == Ok(x.items)
    ensures (x.Str? || x.Dict?) ==> r == if Truthy(x) then Raised(misuse) else Ok([])
    ensures (x.Null? || x.Bool? || x.Num?) ==> r.Raised? && r.exc.kind == TypeError
  {
    match x
    case List(items) => Ok(items)
    case Str(_) => if Truthy(x) then Raised(misuse) else Ok([])
    case Dict(_) => if Truthy(x) then Raised(misuse) else Ok([])
    case _ => Raised(Exc(TypeError, "'" + TypeName(x) + ObjectNotIterable))
  }

  /** A loop whose passes each produce a value or raise, run in order: the values of all passes, or
      the exception of the first pass that raises (the passes after it do not run). */
  function Collect<T>(passes: seq<Result<T>>): (r: Result<seq<T>>)
    ensures r.Ok? <==> forall k :: 0 <= k < |passes| ==> passes[k].Ok?
    ensures r.Ok? ==> |r.value| == |passes| && forall k :: 0 <= k < |passes| ==> passes[k] == Ok(r.value[k])
    ensures r.Raised? ==> exists k :: 0 <= k < |passes| && passes[k] == Raised(r.exc)
                                      && forall j :: 0 <= j < k ==> passes[j].Ok?
    decreases |passes|
  {
    if passes == [] then Ok([])
    else
      var init := passes[..|passes| - 1];
      assert forall j :: 0 <= j < |init| ==> init[j] == passes[j];
      match Collect(init)
      case Raised(e) => Raised(e)
      case Ok(earlier) =>
        match passes[|passes| - 1]
        case Raised(e) => Raised(e)
        case Ok(last) => Ok(earlier + [last])
  }

  /** The exception that ends the loop is the one of the first pass that raises. */
  lemma CollectFirstFailure<T>(passes: seq<Result<T>>, k: nat)
    requires k < |passes| && passes[k].Raised? && Collect(passes[..k]).Ok?
    ensures Collect(passes) == Raised(passes[k].exc)
  {
    assert forall j :: 0 <= j < k ==> passes[..k][j] == passes[j];
    var r := Collect(passes);
    var i :| 0 <= i < |passes| && passes[i] == Raised(r.exc) && forall j :: 0 <= j < i ==> passes[j].Ok?;
    assert i == k;
  }

  /** One more pass that returns extends the values collected so far. */
  lemma CollectStep<T>(passes: seq<Result<T>>, k: nat, earlier: seq<T>)
    requires k < |passes| && Collect(passes[..k]) == Ok(earlier) && passes[k].Ok?
    ensures Collect(passes[..k + 1]) == Ok(earlier + [passes[k].value])
  {
    assert passes[..k + 1][..k] == passes[..k];
  }

  /** `item.get(key, default)` for each item in turn, for a loop that does nothing else that can
      raise: only a dict has `get`, so the first item that is not a dict raises. */
  function GetFromEach(items: seq<Json>, key: string, default: Json): (r: Result<()>)
    ensures r.Ok? <==> forall k :: 0 <= k < |items| ==> items[k].Dict?
  {
    if items == [] then Ok(())
    else
      var _ :- Get(items[0], key, default);
      GetFromEach(items[1..], key, default)
  }

  /** What `record[...]` raises on a str element. */
  const StrSubscript := Exc(TypeError, StrIndexedByStr)

  /** What `record.get(...)` raises on a str element. */
  const StrGet := Exc(AttributeError, "'str' object has no attribute 'get'")

  /** `format(x, "<w")`, as an f-string field `{x:<w}` renders `x`: a str or an int is left-aligned
      and padded; a bool is rendered as the int it stands for (Python's bool inherits int's format);
      None, lists and dicts reject a non-empty format spec. */
  function FormatLeft(x: Json, w: nat): (r: Result<string>)
    ensures x.Str? ==> r == Ok(PadRight(x.s, w))
    ensures r.Ok? <==> x.Str? || x.Num? || x.Bool?
  {
    match x
    case Str(s) => Ok(PadRight(s, w))
    case Num(n) => Ok(PadRight(IntToString(n), w))
    case Bool(b) => Ok(PadRight(if b then "1" else "0", w))
    case _ => Raised(Exc(TypeError, UnsupportedFormat + TypeName(x) + ".__format__"))
  }
}
