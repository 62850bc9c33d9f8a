/** The purge-request builder (`purgeUrl`): one queued URL becomes one PURGE
    request per cache node. The node is the network target; the URL's own host
    travels in the `Host` header so the node knows which vhost to invalidate. */
module RequestBuilder {
  import opened Base

  /** What `parse_url` reports for a URL; a component the URL lacks is None.
      A URL `parse_url` rejects (it returns false) reads as all-None. */
  datatype ParsedUrl = ParsedUrl(
    scheme: Option<string>,
    host: Option<string>,
    path: Option<string>,
    query: Option<string>)

  /** The value of the `X-Purge-Method` header. */
  datatype PurgeMethod = Default | Regex

  /** One PURGE request, with the fields the plugin fills in. */
  datatype Request = Request(
    scheme: string,
    rtype: string,
    balancer: string,
    domain: string,
    path: string,
    uri: string,
    uribal: string,
    headers: seq<string>)

  /** The query string that asks for a whole-site (regex) purge. */
  const RegexQuery: string := "vhp=regex"
  const PurgeVerb: string := "PURGE"

  /** PHP's string concatenation renders an unset component as "". */
  function Text(o: Option<string>): string {
    o.GetOr("")
  }

  function MethodOf(p: ParsedUrl): PurgeMethod {
    if p.query == Some(RegexQuery) then Regex else Default
  }

  function Suffix(m: PurgeMethod): string {
    match m
    case Regex => ".*"
    case Default => ""
  }

  function MethodName(m: PurgeMethod): string {
    match m
    case Regex => "regex"
    case Default => "default"
  }

  /** The nodes a purge goes to: the configured list, or, when none is
      configured, the URL's own host. This is also the value the global node
      list holds after the call, since the fallback is written back to it. */
  function Balancers(nodes: seq<string>, p: ParsedUrl): seq<string> {
    if |nodes| == 0 then [Text(p.host)] else nodes
  }

  function MakeRequest(p: ParsedUrl, balancer: string): Request {
    var m := MethodOf(p);
    var path := Text(p.path);
    Request(
      Text(p.scheme), PurgeVerb, balancer, Text(p.host), path,
      Text(p.scheme) + "://" + Text(p.host) + path + Suffix(m),
      Text(p.scheme) + "://" + balancer + path + Suffix(m),
      ["Host: " + Text(p.host), "Accept-Encoding: gzip", "X-Purge-Method: " + MethodName(m)])
  }

  /** The requests `purgeUrl` hands to the executor for one parsed URL, given
      the node list in force when it is called. */
  function BuildRequests(p: ParsedUrl, nodes: seq<string>): (r: seq<Request>)
    // one request per configured node, in node order
    ensures |nodes| > 0 ==> |r| == |nodes| && forall i :: 0 <= i < |r| ==> r[i].balancer == nodes[i]
    // no node configured: a single self-purge at the URL's host
    ensures |nodes| == 0 ==> |r| == 1 && r[0].balancer == Text(p.host)
    // every request names the URL's host and path, whatever the node
    ensures forall i :: 0 <= i < |r| ==>
      && r[i].rtype == "PURGE"
      && r[i].scheme == Text(p.scheme)
      && r[i].domain == Text(p.host)
      && r[i].path == Text(p.path)
      && |r[i].headers| == 3
      && r[i].headers[0] == "Host: " + Text(p.host)
      && r[i].headers[1] == "Accept-Encoding: gzip"
    // regex mode exactly when the query is the sentinel
    ensures p.query == Some(RegexQuery) ==> forall i :: 0 <= i < |r| ==>
      && r[i].headers[2] == "X-Purge-Method: regex"
      && r[i].uribal == Text(p.scheme) + "://" + r[i].balancer + Text(p.path) + ".*"
      && r[i].uri == Text(p.scheme) + "://" + Text(p.host) + Text(p.path) + ".*"
    ensures p.query != Some(RegexQuery) ==> forall i :: 0 <= i < |r| ==>
      && r[i].headers[2] == "X-Purge-Method: default"
      && r[i].uribal == Text(p.scheme) + "://" + r[i].balancer + Text(p.path)
      && r[i].uri == Text(p.scheme) + "://" + Text(p.host) + Text(p.path)
  {
    var b := Balancers(nodes, p);
    seq(|b|, i requires 0 <= i < |b| => MakeRequest(p, b[i]))
  }

  /** How a receiving node reads a header: the value of the first header
      line that starts with `name: `. */
  function HeaderValue(headers: seq<string>, name: string): Option<string> {
    if |headers| == 0 then None
    else if name + ": " <= headers[0] then Some(headers[0][|name| + 2..])
    else HeaderValue(headers[1..], name)
  }

  /** How a receiving node reads the purge method it was asked for. */
  function RequestedMethod(r: Request): Option<PurgeMethod> {
    match HeaderValue(r.headers, "X-Purge-Method")
    case Some("regex") => Some(Regex)
    case Some("default") => Some(Default)
    case _ => None
  }

  /** A node reading the headers of any built request recovers the URL's host
      and the purge method the sentinel query selects. */
  lemma HeadersDecode(p: ParsedUrl, nodes: seq<string>, i: nat)
    requires i < |BuildRequests(p, nodes)|
    ensures HeaderValue(BuildRequests(p, nodes)[i].headers, "Host") == Some(Text(p.host))
    ensures RequestedMethod(BuildRequests(p, nodes)[i]) == Some(Regex) <==> p.query == Some(RegexQuery)
    ensures RequestedMethod(BuildRequests(p, nodes)[i]) == Some(Default) <==> p.query != Some(RegexQuery)
  {
    var h := BuildRequests(p, nodes)[i].headers;
    var name := "X-Purge-Method";
    assert "Host: " <= h[0];
    assert h[0][|"Host"| + 2..] == Text(p.host);
    assert !(name + ": " <= h[0]) by { assert h[0][0] == 'H'; }
    assert !(name + ": " <= h[1]) by { assert h[1][0] == 'A'; }
    assert name + ": " <= h[2];
    assert HeaderValue(h, name) == HeaderValue(h[2..], name);
    assert h[2][|name| + 2..] == MethodName(MethodOf(p));
  }

  /** The requests for one URL are one purge fanned out: they differ only in
      the node they are sent to, never in the vhost, path or headers. */
  lemma SamePurgeOnEveryNode(p: ParsedUrl, nodes: seq<string>, i: nat, j: nat)
    requires i < |BuildRequests(p, nodes)| && j < |BuildRequests(p, nodes)|
    ensures BuildRequests(p, nodes)[i].uri == BuildRequests(p, nodes)[j].uri
    ensures BuildRequests(p, nodes)[i].headers == BuildRequests(p, nodes)[j].headers
    ensures BuildRequests(p, nodes)[i] == BuildRequests(p, nodes)[j].(balancer := BuildRequests(p, nodes)[i].balancer, uribal := BuildRequests(p, nodes)[i].uribal)
  {
  }

  /** The target URL of a request names its node where the request URI names
      the URL's host; the part after the authority is the same. */
  lemma TargetKeepsPath(p: ParsedUrl, nodes: seq<string>, i: nat)
    requires i < |BuildRequests(p, nodes)|
    ensures var r := BuildRequests(p, nodes)[i];
      && r.uribal[..|r.scheme| + 3 + |r.balancer|] == r.scheme + "://" + r.balancer
      && r.uri[..|r.scheme| + 3 + |r.domain|] == r.scheme + "://" + r.domain
      && r.uribal[|r.scheme| + 3 + |r.balancer|..] == r.uri[|r.scheme| + 3 + |r.domain|..]
  {
  }
}
