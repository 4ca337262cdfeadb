/**
 * Host-list parsing of `getClients` (src/utils.js), which `run` repeats
 * inline: every host is split on `:`; a bare host gets the default Redis
 * port, a `host:port` pair keeps the given port, and anything with more
 * colons aborts the whole list with an error.  Building the Redis client
 * from each pair is not part of this model.
 */
module Hosts {
  import opened Wrappers
  import opened Text

  const DefaultRedisPort: nat := 6379

  /**
   * The port handed to the client: the default number, or the text after the
   * colon, which reaches the client through JavaScript's numeric coercion
   * (`+text`) and is kept uninterpreted here.
   */
  datatype Port = Numeric(number: nat) | Coerced(text: string)

  datatype Endpoint = Endpoint(host: string, port: Port)

  function HostFormatError(host: string): string
  {
    "unexpected host format: " + host
  }

  /** One host of the list: `h` or `h:p`, anything else is an error naming the host. */
  function ParseHost(host: string): (r: Result<Endpoint, string>)
    ensures r.Ok? <==> Count(host, ':') <= 1
    ensures Count(host, ':') == 0 ==> r == Ok(Endpoint(host, Numeric(DefaultRedisPort)))
    ensures Count(host, ':') == 1 ==>
      && r.Ok? && r.value.port.Coerced?
      && host == r.value.host + ":" + r.value.port.text
      && ':' !in r.value.host && ':' !in r.value.port.text
    ensures r.Err? ==> r.error == HostFormatError(host)
  {
    JoinSplit(host, ':');
    var parts := Split(host, ':');
    if |parts| == 1 then
      Ok(Endpoint(parts[0], Numeric(DefaultRedisPort)))
    else if |parts| == 2 then
      assert Join(parts, ':') == parts[0] + [':'] + Join(parts[1..], ':');
      Ok(Endpoint(parts[0], Coerced(parts[1])))
    else
      Err(HostFormatError(host))
  }

  /**
   * The whole list, host by host and in order; the first malformed host
   * aborts it and no partial list is returned.
   */
  function GetEndpoints(hosts: seq<string>): (r: Result<seq<Endpoint>, string>)
    ensures r.Ok? <==> forall i :: 0 <= i < |hosts| ==> ParseHost(hosts[i]).Ok?
    ensures r.Ok? ==>
      && |r.value| == |hosts|
      && forall i :: 0 <= i < |hosts| ==> r.value[i] == ParseHost(hosts[i]).value
    ensures r.Err? ==>
      exists k :: 0 <= k < |hosts| && ParseHost(hosts[k]) == Err(r.error)
                  && forall j :: 0 <= j < k ==> ParseHost(hosts[j]).Ok?
  {
    if hosts == [] then Ok([])
    else
      match ParseHost(hosts[0])
      case Err(e) => Err(e)
      case Ok(endpoint) =>
        match GetEndpoints(hosts[1..])
        case Err(e) =>
          ghost var k :| 0 <= k < |hosts[1..]| && ParseHost(hosts[1..][k]) == Err(e)
                         && forall j :: 0 <= j < k ==> ParseHost(hosts[1..][j]).Ok?;
          assert ParseHost(hosts[k + 1]) == Err(e);
          assert forall j :: 0 <= j < k + 1 ==> ParseHost(hosts[j]).Ok? by {
            forall j | 0 <= j < k + 1 ensures ParseHost(hosts[j]).Ok? {
              if j > 0 { assert hosts[j] == hosts[1..][j - 1]; }
            }
          }
          Err(e)
        case Ok(rest) =>
          var all := [endpoint] + rest;
          assert forall i :: 0 <= i < |hosts| ==> ParseHost(hosts[i]).Ok? && all[i] == ParseHost(hosts[i]).value by {
            forall i | 0 <= i < |hosts| ensures ParseHost(hosts[i]).Ok? && all[i] == ParseHost(hosts[i]).value {
              if i > 0 { assert hosts[i] == hosts[1..][i - 1] && all[i] == rest[i - 1]; }
            }
          }
          Ok(all)
  }

  /** Splitting on `,` and trimming each part: the host list `run` passes on. */
  function HostList(hostsText: string): (hosts: seq<string>)
    ensures |hosts| == Count(hostsText, ',') + 1
    ensures forall i :: 0 <= i < |hosts| ==> ',' !in hosts[i]
    ensures forall i :: 0 <= i < |hosts| ==> hosts[i] == Trim(Split(hostsText, ',')[i])
  {
    var parts := Split(hostsText, ',');
    seq(|parts|, i requires 0 <= i < |parts| => Trim(parts[i]))
  }
}
