/** The protocol normaliser at the end of `handleRequest`: dyndns2 sends
    `hostname` and `myip`, duckdns `domains` and `ip`, ydns `host`; the
    first non-empty alias of each group wins, the IP falls back to the
    `cf-connecting-ip` header, and `proxied` is a presence flag. */
module Normalizer {
  import opened Types
  import opened Text
  import opened Gate

  const MissingParameters := BadRequest("You must specify both hostname(s) and IP address(es)")

  /** JavaScript's `a || b` on a string or `null`: `a` when it is a non-empty
      string, `b` otherwise. */
  function JsOr(a: Option<string>, b: Option<string>): Option<string> {
    if a.Some? && a.value != "" then a else b
  }

  /** A value JavaScript treats as false: `null` or the empty string. */
  predicate Blank(v: Option<string>) {
    v.None? || v.value == ""
  }

  /** The first value of the list that is a non-empty string. */
  function FirstNonEmpty(values: seq<Option<string>>): (r: Option<string>)
    ensures r.None? <==> forall i :: 0 <= i < |values| ==> Blank(values[i])
    ensures r.Some? ==> r.value != ""
    ensures r.Some? ==> exists i :: 0 <= i < |values| && values[i] == r && forall j :: 0 <= j < i ==> Blank(values[j])
  {
    if |values| == 0 then None
    else if values[0].Some? && values[0].value != "" then values[0]
    else
      var r := FirstNonEmpty(values[1..]);
      assert forall i :: 1 <= i < |values| ==> values[i] == values[1..][i - 1];
      r
  }

  /** `values[0] || values[1] || ... || values[n-1]`, grouped to the left as
      JavaScript groups it. */
  function OrChain(values: seq<Option<string>>): Option<string>
    requires |values| >= 1
  {
    if |values| == 1 then values[0] else JsOr(OrChain(values[..|values| - 1]), values[|values| - 1])
  }

  /** A chain of `||` yields the first non-empty value, and when there is
      none, the last value itself (which may then be an empty string). */
  lemma {:induction false} OrChainIsFirstNonEmpty(values: seq<Option<string>>)
    requires |values| >= 1
    ensures var v := OrChain(values);
      && (FirstNonEmpty(values).Some? ==> v == FirstNonEmpty(values))
      && (FirstNonEmpty(values).None? ==> v == values[|values| - 1])
    decreases |values|
  {
    if |values| > 1 {
      var init := values[..|values| - 1];
      OrChainIsFirstNonEmpty(init);
      FirstNonEmptyOfSnoc(init, values[|values| - 1]);
      assert init + [values[|values| - 1]] == values;
    }
  }

  /** Appending a value changes the first non-empty value only when there was
      none. */
  lemma {:induction false} FirstNonEmptyOfSnoc(values: seq<Option<string>>, last: Option<string>)
    ensures FirstNonEmpty(values + [last]) ==
      if FirstNonEmpty(values).Some? then FirstNonEmpty(values)
      else if last.Some? && last.value != "" then last else None
    decreases |values|
  {
    if |values| > 0 {
      assert (values + [last])[1..] == values[1..] + [last];
      FirstNonEmptyOfSnoc(values[1..], last);
    }
  }

  function HostnameAliases(query: map<string, string>): seq<Option<string>> {
    [Get(query, "hostname"), Get(query, "host"), Get(query, "domains")]
  }

  function IpSources(query: map<string, string>, headers: map<string, string>): seq<Option<string>> {
    [Get(query, "ips"), Get(query, "ip"), Get(query, "myip"), Get(headers, "cf-connecting-ip")]
  }

  /** Lines 162-176 of `handleRequest`: the hostname list is the first
      non-empty alias split on commas (or `[""]` when `domains` is present but
      empty and no other alias is set); the IP is the first non-empty source,
      trimmed; either one missing is a bad request. */
  function Normalize(req: Request): (r: Result<UpdateRequest>)
    ensures r.Err? <==>
      || (FirstNonEmpty(HostnameAliases(req.query)).None? && "domains" !in req.query)
      || FirstNonEmpty(IpSources(req.query, req.headers)).None?
    ensures r.Err? ==> r.error == MissingParameters
    ensures r.Ok? ==>
      && |r.value.hostnames| >= 1
      && Join(r.value.hostnames, ',') == FirstNonEmpty(HostnameAliases(req.query)).GetOr("")
      && (forall i :: 0 <= i < |r.value.hostnames| ==> ',' !in r.value.hostnames[i])
      && r.value.ip == Trim(FirstNonEmpty(IpSources(req.query, req.headers)).value)
      && (r.value.proxied <==> "proxied" in req.query)
  {
    var q := req.query;
    var hostnameParam := OrChain(HostnameAliases(q));
    var ip := OrChain(IpSources(q, req.headers));
    OrChainIsFirstNonEmpty(HostnameAliases(q));
    OrChainIsFirstNonEmpty(IpSources(q, req.headers));
    if hostnameParam.None? || ip.None? || ip.value == "" then Err(MissingParameters)
    else Ok(UpdateRequest(Split(hostnameParam.value, ','), Trim(ip.value), "proxied" in q))
  }
}
