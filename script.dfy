/** The script side (prometheus_aioexporter/_script.py): the parsed-arguments
    record, the service description, the optional process collector and the
    decision whether to serve over TLS. */
module Script {

  import opened Wrappers
  import opened Text
  import Dict
  import Metric

  // ---------------------------------------------------------------------------
  // Argument values

  /** `LogLevel`, an IntEnum over the logging levels. */
  datatype LogLevel = Critical | Error | Warning | Info | Debug

  /** `LogFormat`, a StrEnum. */
  datatype LogFormat = Plain | Json

  function LevelValue(l: LogLevel): int {
    match l
    case Critical => 50
    case Error => 40
    case Warning => 30
    case Info => 20
    case Debug => 10
  }

  function LevelName(l: LogLevel): string {
    match l
    case Critical => "CRITICAL"
    case Error => "ERROR"
    case Warning => "WARNING"
    case Info => "INFO"
    case Debug => "DEBUG"
  }

  function FormatName(f: LogFormat): string {
    match f
    case Plain => "PLAIN"
    case Json => "JSON"
  }

  function FormatValue(f: LogFormat): string {
    match f
    case Plain => "plain"
    case Json => "json"
  }

  /** The values the command line produces: None for an absent option, flags,
      numbers, strings, `pathlib.Path`s, tuples for repeated options, and the
      two log enums. */
  datatype ArgValue =
    | NoneValue
    | Bool(b: bool)
    | Int(i: int)
    | Str(s: string)
    | PathValue(path: string)
    | Tuple(items: seq<ArgValue>)
    | Level(level: LogLevel)
    | Format(format: LogFormat)

  /** The value Python compares: a bool is the int 0 or 1, an IntEnum member
      its int, a StrEnum member its string; tuples compare element by element. */
  function Canonical(v: ArgValue): (r: ArgValue)
    ensures !r.Bool? && !r.Level? && !r.Format?
    ensures v.Tuple? <==> r.Tuple?
    ensures v.Tuple? ==> |r.items| == |v.items|
    decreases v
  {
    match v
    case Bool(b) => Int(if b then 1 else 0)
    case Level(l) => Int(LevelValue(l))
    case Format(f) => Str(FormatValue(f))
    case Tuple(items) => Tuple(seq(|items|, i requires 0 <= i < |items| => Canonical(items[i])))
    case _ => v
  }

  /** Python's `==` on argument values. */
  predicate PyEq(a: ArgValue, b: ArgValue) {
    Canonical(a) == Canonical(b)
  }

  /** Python's truth value. A path is always true; every log level is non-zero
      and every log format a non-empty string. */
  predicate Truthy(v: ArgValue) {
    match v
    case NoneValue => false
    case Bool(b) => b
    case Int(i) => i != 0
    case Str(s) => s != ""
    case PathValue(_) => true
    case Tuple(items) => items != []
    case Level(_) => true
    case Format(_) => true
  }

  /** Python's `repr` of a str: single quotes unless the text holds a single
      quote and no double quote; backslash, the quote and the usual control
      characters are escaped. */
  function StrRepr(s: string): (r: string)
    ensures |r| >= 2 && r[0] == r[|r| - 1] && (r[0] == '\'' || r[0] == '"')
  {
    var q := if '\'' in s && '"' !in s then '"' else '\'';
    [q] + Escape(s, q) + [q]
  }

  function Escape(s: string, q: char): string {
    if s == [] then ""
    else
      var c := s[0];
      var e :=
        if c == '\\' then "\\\\"
        else if c == q then ['\\', q]
        else if c == '\n' then "\\n"
        else if c == '\r' then "\\r"
        else if c == '\t' then "\\t"
        else [c];
      e + Escape(s[1..], q)
  }

  /** The character an escape `\c` stands for inside a repr quoted with `q`. */
  function EscapedChar(c: char, q: char): Option<char> {
    if c == '\\' then Some('\\')
    else if c == q then Some(q)
    else if c == 'n' then Some('\n')
    else if c == 'r' then Some('\r')
    else if c == 't' then Some('\t')
    else None
  }

  /** Reads the text between the quotes of a repr back; a bare quote or a
      dangling backslash is refused. */
  function Unescape(t: string, q: char): Option<string> {
    if t == [] then Some("")
    else if t[0] == '\\' then
      if |t| < 2 then None
      else
        match (EscapedChar(t[1], q), Unescape(t[2..], q))
        case (Some(c), Some(rest)) => Some([c] + rest)
        case _ => None
    else if t[0] == q then None
    else
      match Unescape(t[1..], q)
      case Some(rest) => Some([t[0]] + rest)
      case None => None
  }

  lemma {:induction false} EscapeRoundTrip(s: string, q: char)
    requires q == '\'' || q == '"'
    ensures Unescape(Escape(s, q), q) == Some(s)
  {
    if s != [] {
      var c := s[0];
      var rest := Escape(s[1..], q);
      EscapeRoundTrip(s[1..], q);
      var t := Escape(s, q);
      if c == '\\' || c == q || c == '\n' || c == '\r' || c == '\t' {
        assert t[0] == '\\' && t[2..] == rest;
      } else {
        assert t[0] == c && t[1..] == rest;
      }
      assert s == [c] + s[1..];
    }
  }

  /** Reads a str repr back. */
  function ParseStrRepr(r: string): Option<string> {
    if |r| >= 2 && r[0] == r[|r| - 1] && (r[0] == '\'' || r[0] == '"') then Unescape(r[1..|r| - 1], r[0])
    else None
  }

  /** The repr of a string reads back as that string; it is double-quoted
      exactly when the text holds a single quote and no double quote. */
  lemma StrReprRoundTrip(s: string)
    ensures ParseStrRepr(StrRepr(s)) == Some(s)
    ensures StrRepr(s)[0] == '"' <==> '\'' in s && '"' !in s
  {
    var q := if '\'' in s && '"' !in s then '"' else '\'';
    var r := StrRepr(s);
    assert r[1..|r| - 1] == Escape(s, q);
    EscapeRoundTrip(s, q);
  }

  /** `repr` of an argument value. */
  function ValueRepr(v: ArgValue): (r: string)
    ensures v.Str? ==> ParseStrRepr(r) == Some(v.s)
    ensures v.Int? ==> ParseInt(r) == Some(v.i)
    ensures v.Tuple? ==> |r| >= 2 && r[0] == '(' && r[|r| - 1] == ')'
    decreases v
  {
    match v
    case NoneValue => "None"
    case Bool(b) => if b then "True" else "False"
    case Int(i) => IntToStringRoundTrip(i); IntToString(i)
    case Str(s) => StrReprRoundTrip(s); StrRepr(s)
    case PathValue(p) => "PosixPath(" + StrRepr(p) + ")"
    case Tuple(items) =>
      if |items| == 1 then "(" + ValueRepr(items[0]) + ",)"
      else "(" + Join(seq(|items|, i requires 0 <= i < |items| => ValueRepr(items[i])), ", ") + ")"
    case Level(l) => LevelName(l)
    case Format(f) => "<LogFormat." + FormatName(f) + ": " + StrRepr(FormatValue(f)) + ">"
  }

  // ---------------------------------------------------------------------------
  // Arguments

  /** The `name=repr(value)` entries of a repr, for the given names in order. */
  function ReprEntries(names: seq<string>, m: map<string, ArgValue>): seq<string>
    requires forall i | 0 <= i < |names| :: names[i] in m
  {
    seq(|names|, i requires 0 <= i < |names| => names[i] + "=" + ValueRepr(m[names[i]]))
  }

  /** `AttributeError`, with its message. */
  datatype AttributeError = AttributeError(message: string)

  /** What `args.<name>` yields: a stored argument, or an attribute the instance
      has of its own (`_values`, set in `__init__`, or the method `dict`), which
      ordinary attribute lookup finds before `__getattr__` runs. */
  datatype Attribute = Stored(value: ArgValue) | OwnAttribute(name: string)

  /** The non-special names an `Arguments` instance has of its own. */
  const OwnAttributes: set<string> := {"_values", "dict"}

  /** The other operand of `==`. */
  datatype Operand = ArgumentsOperand(args: Arguments) | OtherObject

  /** The result of `__eq__`. */
  datatype Comparison = NotImplemented | Compared(equal: bool)

  /** Two name-to-value maps that Python's `==` finds equal. */
  predicate SameValues(a: map<string, ArgValue>, b: map<string, ArgValue>) {
    a.Keys == b.Keys && forall k | k in a :: PyEq(a[k], b[k])
  }

  /** `Arguments(**values)`: the keyword arguments in the order given (a
      keyword never occurs twice). */
  datatype Arguments = Arguments(values: seq<(string, ArgValue)>) {

    /** `__getattr__`: the stored value, or AttributeError naming the attribute. */
    function GetAttr(name: string): (r: Result<ArgValue, AttributeError>)
      ensures r.Ok? <==> name in Dict.Keys(values)
      ensures r.Ok? ==> (name, r.value) in values
      ensures r.Err? ==> r.error.message == "'Arguments' has no attribute '" + name + "'"
    {
      Dict.LookupFound(values, name);
      match Dict.Lookup(values, name)
      case Some(v) => Ok(v)
      case None => Err(AttributeError("'Arguments' has no attribute '" + name + "'"))
    }

    /** `args.<name>`: ordinary lookup first, then `__getattr__`. */
    function Attr(name: string): (r: Result<Attribute, AttributeError>)
      ensures name in OwnAttributes ==> r == Ok(OwnAttribute(name))
      ensures name !in OwnAttributes ==> (r.Ok? <==> GetAttr(name).Ok?)
      ensures name !in OwnAttributes && r.Ok? ==> r.value == Stored(GetAttr(name).value)
    {
      if name in OwnAttributes then Ok(OwnAttribute(name))
      else
        match GetAttr(name)
        case Ok(v) => Ok(Stored(v))
        case Err(e) => Err(e)
    }

    /** `dict()`: a deep copy of the stored map. Values here are immutable, so
        the copy can never be changed through the record, nor the record through it. */
    function AsDict(): (r: map<string, ArgValue>)
      ensures r.Keys == set k | k in Dict.Keys(values)
      ensures forall k | k in r :: GetAttr(k) == Ok(r[k])
    {
      Dict.ToMap(values)
    }

    /** `__eq__`: NotImplemented against anything but `Arguments`; otherwise
        the stored maps are compared. */
    function Eq(other: Operand): (r: Comparison)
      ensures other.OtherObject? <==> r == NotImplemented
      ensures other.ArgumentsOperand? ==> r == Compared(SameValues(AsDict(), other.args.AsDict()))
    {
      match other
      case OtherObject => NotImplemented
      case ArgumentsOperand(o) => Compared(SameValues(AsDict(), o.AsDict()))
    }

    /** `__repr__`: `Arguments(name=repr(value), ...)`, the pairs in Python's
        string order of the names, joined by `, `. */
    function Repr(): (r: string)
      ensures |r| >= 11 && r[..10] == "Arguments(" && r[|r| - 1] == ')'
      ensures forall names | Sorted(names) && multiset(names) == multiset(Dict.Keys(values)) ::
        (forall i | 0 <= i < |names| :: names[i] in AsDict())
        && r == "Arguments(" + Join(ReprEntries(names, AsDict()), ", ") + ")"
    {
      var keys := Dict.Keys(values);
      var names := SortStrings(keys);
      var m := AsDict();
      SortedArrangementUnique(keys);
      assert forall i | 0 <= i < |names| :: names[i] in m by {
        forall i | 0 <= i < |names| ensures names[i] in m {
          assert names[i] in multiset(keys);
        }
      }
      "Arguments(" + Join(ReprEntries(names, m), ", ") + ")"
    }
  }

  /** Python's `==` is reflexive and symmetric on `Arguments`. */
  lemma EqReflexiveSymmetric(a: Arguments, b: Arguments)
    ensures a.Eq(ArgumentsOperand(a)) == Compared(true)
    ensures a.Eq(ArgumentsOperand(b)) == b.Eq(ArgumentsOperand(a))
  {
  }

  /** Equal records answer every attribute with equal values, and fail on the same names. */
  lemma EqualArgumentsAgree(a: Arguments, b: Arguments, name: string)
    requires a.Eq(ArgumentsOperand(b)) == Compared(true)
    ensures a.GetAttr(name).Ok? <==> b.GetAttr(name).Ok?
    ensures a.GetAttr(name).Ok? ==> PyEq(a.GetAttr(name).value, b.GetAttr(name).value)
  {
    Dict.LookupFound(a.values, name);
    Dict.LookupFound(b.values, name);
  }

  /** The attribute and the `dict()` entry agree on every argument name. */
  lemma DictAgreesWithAttributes(a: Arguments, name: string, v: ArgValue)
    requires name !in OwnAttributes
    ensures a.Attr(name) == Ok(Stored(v)) <==> name in a.AsDict() && a.AsDict()[name] == v
  {
    Dict.LookupFound(a.values, name);
  }

  /** The repr does not depend on the order the keyword arguments were given in. */
  lemma ReprIgnoresOrder(a: Arguments, b: Arguments)
    requires Dict.DistinctKeys(a.values) && Dict.DistinctKeys(b.values)
    requires a.AsDict() == b.AsDict()
    ensures a.Repr() == b.Repr()
  {
    Dict.SameMapSameKeys(a.values, b.values);
    SortIgnoresOrder(Dict.Keys(a.values), Dict.Keys(b.values));
  }

  // ---------------------------------------------------------------------------
  // The script

  /** The files handed to `ssl.create_default_context` (the CA file) and to
      `load_cert_chain` (certificate, then key). */
  datatype TlsFiles = TlsFiles(certFile: ArgValue, keyFile: ArgValue, caFile: ArgValue)

  /** `PrometheusExporterScript`: what its registry holds and how it is described. */
  class PrometheusExporterScript {
    const registry: Metric.MetricsRegistry
    /** The docstring of the script's class (a class docstring is not inherited). */
    const doc: Option<string>

    constructor (doc: Option<string>)
      ensures this.doc == doc && fresh(registry)
      ensures registry.metrics == map[] && registry.registered == []
    {
      this.doc := doc;
      registry := new Metric.MetricsRegistry();
    }

    /** `description`: `self.__doc__ or ""`. */
    function Description(): (r: string)
      ensures doc.Some? ==> r == doc.value
      ensures doc.None? ==> r == ""
    {
      match doc
      case None => ""
      case Some(d) => d
    }

    /** `_configure_registry`: the process collector is registered exactly when
        process stats are asked for; the metrics map is untouched. */
    method ConfigureRegistry(includeProcessStats: bool)
      modifies registry
      ensures registry.metrics == old(registry.metrics)
      ensures registry.registered ==
        old(registry.registered) + (if includeProcessStats then [Metric.Additional(Metric.ProcessCollector)] else [])
    {
      if includeProcessStats {
        registry.RegisterAdditionalCollector(Metric.ProcessCollector);
      }
    }
  }

  /** The TLS decision of `_get_ssl_context`: both key paths are read; unless
      both are truthy there is no TLS (not an error); otherwise the CA path is
      read too. A missing argument is an AttributeError. */
  function GetSslContext(args: Arguments): (r: Result<Option<TlsFiles>, AttributeError>)
    ensures r.Ok? && r.value.Some? ==>
      && args.GetAttr("ssl_private_key").Ok? && args.GetAttr("ssl_public_key").Ok? && args.GetAttr("ssl_ca").Ok?
      && Truthy(args.GetAttr("ssl_private_key").value) && Truthy(args.GetAttr("ssl_public_key").value)
      && r.value.value == TlsFiles(args.GetAttr("ssl_public_key").value,
                                   args.GetAttr("ssl_private_key").value,
                                   args.GetAttr("ssl_ca").value)
  {
    match (args.Attr("ssl_private_key"), args.Attr("ssl_public_key"))
    case (Err(e), _) => Err(e)
    case (_, Err(e)) => Err(e)
    case (Ok(Stored(key)), Ok(Stored(cert))) =>
      if !(Truthy(key) && Truthy(cert)) then Ok(None)
      else
        match args.Attr("ssl_ca")
        case Err(e) => Err(e)
        case Ok(Stored(ca)) => Ok(Some(TlsFiles(cert, key, ca)))
  }

  /** TLS is set up exactly when both key paths are given; with one or neither
      the answer is None, not an error. */
  lemma TlsNeedsBothKeys(args: Arguments)
    requires args.GetAttr("ssl_private_key").Ok? && args.GetAttr("ssl_public_key").Ok?
    requires args.GetAttr("ssl_ca").Ok?
    ensures GetSslContext(args).Ok?
    ensures GetSslContext(args).value.Some? <==>
      Truthy(args.GetAttr("ssl_private_key").value) && Truthy(args.GetAttr("ssl_public_key").value)
  {
  }

  /** A missing key argument is an error naming it; the private key is read first. */
  lemma TlsMissingArgument(args: Arguments)
    requires args.GetAttr("ssl_private_key").Err? || args.GetAttr("ssl_public_key").Err?
    ensures GetSslContext(args).Err?
    ensures args.GetAttr("ssl_private_key").Err? ==> GetSslContext(args).error == args.GetAttr("ssl_private_key").error
  {
  }
}
