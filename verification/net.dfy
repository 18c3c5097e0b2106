/**
 * The configuration normalisers of src/utils/net.ts: host and port lists
 * accepted as a comma-separated string, a number or a list, and the key under
 * which the relay files a client connection.
 */
module Net {
  import opened Wrappers
  import opened Text

  /** The shapes a host or port option can take; `Other` is any other JavaScript value. */
  datatype ConfigValue = Str(text: string) | Num(n: nat) | List(items: seq<string>) | Other

  /** The error `parseHosts` throws: "cannot parse object: ...". */
  datatype ConfigError = CannotParse(value: ConfigValue)

  /** Remote address and port of a socket, as `remoteAddress` and `remotePort` report them. */
  datatype Remote = Remote(address: string, port: nat)

  /**
   * `parseHosts`: a string becomes the pieces between its commas, a number the
   * pieces of its decimal text (always that one text), a list is kept, and any
   * other value is refused.
   */
  function ParseHosts(v: ConfigValue): (r: Result<seq<string>, ConfigError>)
    ensures v.Str? ==> (r.Success? && Join(r.value, ',') == v.text &&
                        |r.value| == Count(v.text, ',') + 1 &&
                        forall i :: 0 <= i < |r.value| ==> ',' !in r.value[i])
    ensures v.Num? ==> r == Success([Decimal(v.n)])
    ensures v.List? ==> r == Success(v.items)
    ensures v.Other? ==> r == Failure(CannotParse(v))
    decreases if v.Num? then 1 else 0
  {
    match v
    case Str(s) =>
      JoinSplit(s, ',');
      Success(Split(s, ','))
    case Num(n) =>
      SplitNoSep(Decimal(n), ',');
      ParseHosts(Str(Decimal(n)))
    case List(items) => Success(items)
    case Other => Failure(CannotParse(v))
  }

  /** `parsePorts` accepts exactly what `parseHosts` accepts and returns the same list. */
  function ParsePorts(v: ConfigValue): (r: Result<seq<string>, ConfigError>)
    ensures r == ParseHosts(v)
  {
    ParseHosts(v)
  }

  /** A non-empty list of comma-free pieces, written as one string, reads back as that list. */
  lemma ParseHostsJoined(pieces: seq<string>)
    requires |pieces| >= 1
    requires forall i :: 0 <= i < |pieces| ==> ',' !in pieces[i]
    ensures ParseHosts(Str(Join(pieces, ','))) == Success(pieces)
  {
    SplitJoin(pieces, ',');
  }

  /**
   * `uniqueKey`: "<address>:<port>". The text after the last ':' is the port
   * (read back with parseInt) and the text before it is the address, so the
   * key can be decoded whatever colons the address holds (IPv6).
   */
  function UniqueKey(remote: Remote): (key: string)
    ensures var f := Split(key, ':'); var portText := f[|f| - 1];
      |portText| < |key| && AllDigits(portText) &&
      ParseInt(portText) == Some(remote.port) &&
      key[..|key| - |portText| - 1] == remote.address
  {
    var port := Decimal(remote.port);
    var key := remote.address + ":" + port;
    SplitAppend(remote.address, port, ':');
    SplitNoSep(port, ':');
    DecimalParses(remote.port);
    assert key[..|key| - |port| - 1] == remote.address;
    key
  }

  /** Distinct connections get distinct keys. */
  lemma UniqueKeyInjective(a: Remote, b: Remote)
    requires UniqueKey(a) == UniqueKey(b)
    ensures a == b
  {
  }
}
