/**
 * The pure part of `handleAuth` in src/tcp.proxy.ts: the identification query
 * (section "Query/Response Format" of RFC 1413) and the user-name test applied
 * to the reply.
 */
module Ident {
  import opened Wrappers
  import opened Text

  /** The identification protocol port the relay connects to. */
  const IdentPort: nat := 113

  /** `util.format("%d, %d", remotePort, proxyPort)`. */
  function Query(remotePort: nat, proxyPort: nat): (q: string)
    ensures var f := Split(q, ',');
      |f| == 2 && AllDigits(f[0]) && ParseInt(f[0]) == Some(remotePort) &&
      |f[1]| >= 1 && f[1][0] == ' ' && AllDigits(f[1][1..]) && ParseInt(f[1][1..]) == Some(proxyPort)
  {
    var a, b := Decimal(remotePort), Decimal(proxyPort);
    SplitPair(a, b);
    DecimalParses(remotePort);
    DecimalParses(proxyPort);
    assert (" " + b)[1..] == b;
    a + ", " + b
  }

  /** Two comma-free texts written "a, b" split at the comma into "a" and " b". */
  lemma SplitPair(a: string, b: string)
    requires ',' !in a && ',' !in b
    ensures Split(a + ", " + b, ',') == [a, " " + b]
  {
    var c := " " + b;
    assert ',' !in c;
    assert a + ", " + b == a + [','] + c;
    SplitAppend(a, c, ',');
    SplitNoSep(a, ',');
    SplitNoSep(c, ',');
  }

  /**
   * `response.split(":").pop()`: the text after the last ':' of the reply, or
   * the whole reply when it has no ':'. It is not trimmed again.
   */
  function User(response: string): (user: string)
    ensures ':' !in user
    ensures |user| <= |response| && user == response[|response| - |user|..]
    ensures ':' in response ==> response[|response| - |user| - 1] == ':'
    ensures ':' !in response ==> user == response
  {
    SplitLast(response, ':');
    var f := Split(response, ':');
    f[|f| - 1]
  }

  /**
   * `users.includes(user)`: the final admission test on a (trimmed) reply. A
   * reply without ':' must be listed verbatim; any admitted reply ends in a
   * listed, colon-free name.
   */
  function Allowed(response: string, users: seq<string>): (admitted: bool)
    ensures ':' !in response ==> (admitted <==> response in users)
    ensures admitted ==>
      exists k :: (0 <= k < |users| && ':' !in users[k] &&
                   |users[k]| <= |response| && response[|response| - |users[k]|..] == users[k])
  {
    User(response) in users
  }

  /** A reply "<anything>:<name>" with a colon-free name is admitted iff the name is listed. */
  lemma AllowedField(prefix: string, name: string, users: seq<string>)
    requires ':' !in name
    ensures User(prefix + ":" + name) == name
    ensures Allowed(prefix + ":" + name, users) <==> name in users
  {
    SplitAppend(prefix, name, ':');
    SplitNoSep(name, ':');
  }

  /**
   * A reply laid out as in the examples of RFC 1413, "<port-pair> : USERID :
   * <opsys> : <user-id>", yields the user id with the blank after the last ':'
   * still in front, so it never matches the bare user id.
   */
  lemma SpacedReplyKeepsBlank(prefix: string, name: string, users: seq<string>)
    requires ':' !in name
    ensures User(prefix + " : " + name) == " " + name
    ensures Allowed(prefix + " : " + name, users) <==> " " + name in users
    ensures !Allowed(prefix + " : " + name, [name])
  {
    var field := " " + name;
    assert ':' !in field;
    assert prefix + " : " + name == (prefix + " ") + ":" + field;
    AllowedField(prefix + " ", field, users);
    AllowedField(prefix + " ", field, [name]);
    assert field != name by { assert |field| != |name|; }
  }
}
