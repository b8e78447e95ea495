/** src/internet.rs: the WAN network lookup and the DNS settings projected
    from it. The same code is repeated in src/api.rs:40-98. */
module Internet {
  import opened Wrappers
  import opened Json
  import opened Api

  /** The one typed result of the client. */
  datatype DnsSettings = DnsSettings(
    mode: string,
    dns1: Option<string>,
    dns2: Option<string>,
    modeIpv6: string,
    dns1Ipv6: Option<string>,
    dns2Ipv6: Option<string>)

  /** A network whose `purpose` is the string "wan" (compared exactly). */
  predicate IsWan(network: Json) {
    StrField(network, "purpose") == Some("wan")
  }

  /** The first WAN network in list order, if any. */
  function FirstWan(networks: seq<Json>): Option<Json> {
    if networks == [] then None
    else if IsWan(networks[0]) then Some(networks[0])
    else FirstWan(networks[1..])
  }

  /** `w` is what the lookup finds exactly when it is a WAN network at some
      position with no WAN network before it. */
  lemma {:induction false} FirstWanIsFirstMatch(networks: seq<Json>, w: Json)
    ensures FirstWan(networks) == Some(w) <==>
            exists i :: 0 <= i < |networks| && networks[i] == w && IsWan(w) &&
                        forall j :: 0 <= j < i ==> !IsWan(networks[j])
  {
    if networks != [] && !IsWan(networks[0]) {
      var tail := networks[1..];
      FirstWanIsFirstMatch(tail, w);
      if FirstWan(networks) == Some(w) {
        var i :| 0 <= i < |tail| && tail[i] == w && IsWan(w) &&
                 forall j :: 0 <= j < i ==> !IsWan(tail[j]);
        assert networks[i + 1] == w;
        forall j | 0 <= j < i + 1 ensures !IsWan(networks[j]) {
          if j > 0 { assert networks[j] == tail[j - 1]; }
        }
      }
      if exists i :: 0 <= i < |networks| && networks[i] == w && IsWan(w) &&
                     forall j :: 0 <= j < i ==> !IsWan(networks[j]) {
        var i :| 0 <= i < |networks| && networks[i] == w && IsWan(w) &&
                 forall j :: 0 <= j < i ==> !IsWan(networks[j]);
        assert i != 0;
        assert tail[i - 1] == w;
        forall j | 0 <= j < i - 1 ensures !IsWan(tail[j]) {
          assert tail[j] == networks[j + 1];
        }
      }
    }
  }

  /** The lookup finds nothing exactly when no network is a WAN network. */
  lemma {:induction false} FirstWanNoneIffNoWan(networks: seq<Json>)
    ensures FirstWan(networks).None? <==> forall i :: 0 <= i < |networks| ==> !IsWan(networks[i])
  {
    if networks != [] {
      FirstWanNoneIffNoWan(networks[1..]);
      assert forall i :: 1 <= i < |networks| ==> networks[i] == networks[1..][i - 1];
    }
  }

  /** The `for network in data` loop with its early return. */
  method FindWan(networks: seq<Json>) returns (r: Option<Json>)
    ensures r == FirstWan(networks)
    ensures r.None? <==> forall i :: 0 <= i < |networks| ==> !IsWan(networks[i])
    ensures r.Some? ==> IsWan(r.value) && r.value in networks
  {
    var i := 0;
    while i < |networks|
      invariant 0 <= i <= |networks|
      invariant forall j :: 0 <= j < i ==> !IsWan(networks[j])
      invariant FirstWan(networks) == FirstWan(networks[i..])
    {
      if IsWan(networks[i]) {
        return Some(networks[i]);
      }
      assert networks[i..][1..] == networks[i + 1..];
      i := i + 1;
    }
    return None;
  }

  /** The WAN network of a `networkconf` envelope: a missing or non-array
      `data` is searched like an empty list. */
  function WanInBody(body: Json): (r: Result<Json>)
    ensures var networks := ArrayField(body, "data").GetOr([]);
            && (r.Ok? ==> exists i :: 0 <= i < |networks| && networks[i] == r.value && IsWan(r.value) &&
                                      forall j :: 0 <= j < i ==> !IsWan(networks[j]))
            && (r.Err? <==> forall i :: 0 <= i < |networks| ==> !IsWan(networks[i]))
            && (r.Err? ==> r.error == NotFound("No WAN network found"))
  {
    var networks := ArrayField(body, "data").GetOr([]);
    FirstWanNoneIffNoWan(networks);
    match FirstWan(networks)
    case Some(w) => FirstWanIsFirstMatch(networks, w); Ok(w)
    case None => Err(NotFound("No WAN network found"))
  }

  /** The request that `get_wan_network` sends. */
  function NetworkConfRequest(c: Client): Request {
    GetRequest(c, RestUrl(c, "networkconf"))
  }

  /** `get_wan_network`, as a function of the controller's answer: fetch and
      status failures come first, then the search. */
  function WanNetwork(c: Client, send: Transport): (r: Result<Json>)
    ensures var b := Received(send(NetworkConfRequest(c)),
                              "Failed to fetch network config", "Failed to get network config");
            && (b.Err? ==> r == Err(b.error))
            && (b.Ok? ==> r == WanInBody(b.value))
  {
    match Received(send(NetworkConfRequest(c)), "Failed to fetch network config", "Failed to get network config")
    case Err(e) => Err(e)
    case Ok(body) => WanInBody(body)
  }

  /** `get_wan_network`: one fetch of `networkconf`, then the scan. */
  method GetWanNetwork(c: Client, send: Transport) returns (r: Result<Json>)
    ensures r == WanNetwork(c, send)
    ensures r.Ok? ==> IsWan(r.value)
  {
    var body := Received(send(NetworkConfRequest(c)), "Failed to fetch network config", "Failed to get network config");
    if body.Err? {
      return Err(body.error);
    }
    var data := ArrayField(body.value, "data");
    if data.Some? {
      var found := FindWan(data.value);
      if found.Some? {
        return Ok(found.value);
      }
    }
    return Err(NotFound("No WAN network found"));
  }

  /** `get_wan_settings`: the WAN network object itself. */
  method GetWanSettings(c: Client, send: Transport) returns (r: Result<Json>)
    ensures r == WanNetwork(c, send)
  {
    r := GetWanNetwork(c, send);
  }

  /** The `get_str` closure: a member that is present, a string, and not empty. */
  function NonEmptyStr(network: Json, key: string): (r: Option<string>)
    ensures r.Some? <==> network.Obj? && key in network.fields &&
                         network.fields[key].Str? && network.fields[key].s != ""
    ensures r.Some? ==> r.value == network.fields[key].s
  {
    match StrField(network, key)
    case Some(s) => if s != "" then Some(s) else None
    case None => None
  }

  /** The six DNS fields of the WAN network; an empty string reads as absent
      and a missing preference reads as "auto". */
  function DnsProjection(network: Json): (d: DnsSettings)
    ensures d.mode == NonEmptyStr(network, "wan_dns_preference").GetOr("auto")
    ensures d.modeIpv6 == NonEmptyStr(network, "wan_ipv6_dns_preference").GetOr("auto")
    ensures d.dns1 == NonEmptyStr(network, "wan_dns1") && d.dns2 == NonEmptyStr(network, "wan_dns2")
    ensures d.dns1Ipv6 == NonEmptyStr(network, "wan_ipv6_dns1")
    ensures d.dns2Ipv6 == NonEmptyStr(network, "wan_ipv6_dns2")
    ensures d.mode != "" && d.modeIpv6 != ""
    ensures d.dns1 != Some("") && d.dns2 != Some("") && d.dns1Ipv6 != Some("") && d.dns2Ipv6 != Some("")
  {
    DnsSettings(
      NonEmptyStr(network, "wan_dns_preference").GetOr("auto"),
      NonEmptyStr(network, "wan_dns1"),
      NonEmptyStr(network, "wan_dns2"),
      NonEmptyStr(network, "wan_ipv6_dns_preference").GetOr("auto"),
      NonEmptyStr(network, "wan_ipv6_dns1"),
      NonEmptyStr(network, "wan_ipv6_dns2"))
  }

  /** An empty string in any member projects exactly like a missing member. */
  lemma EmptyFieldSameAsMissing(fields: map<string, Json>, key: string)
    ensures DnsProjection(Obj(fields[key := Str("")])) == DnsProjection(Obj(fields - {key}))
  {
    EmptyMemberReadsAbsent(fields, key, "wan_dns_preference");
    EmptyMemberReadsAbsent(fields, key, "wan_dns1");
    EmptyMemberReadsAbsent(fields, key, "wan_dns2");
    EmptyMemberReadsAbsent(fields, key, "wan_ipv6_dns_preference");
    EmptyMemberReadsAbsent(fields, key, "wan_ipv6_dns1");
    EmptyMemberReadsAbsent(fields, key, "wan_ipv6_dns2");
  }

  /** One member read through `NonEmptyStr`: blank and missing agree. */
  lemma EmptyMemberReadsAbsent(fields: map<string, Json>, key: string, k: string)
    ensures NonEmptyStr(Obj(fields[key := Str("")]), k) == NonEmptyStr(Obj(fields - {key}), k)
  {
  }

  /** A LAN entry before the WAN entry, one DNS server set and an empty
      preference: the preferences read "auto" and the rest are absent. */
  lemma {:induction false} LanThenWanScenario()
    ensures var lan := Obj(map["purpose" := Str("lan")]);
            var wan := Obj(map["purpose" := Str("wan"), "wan_dns1" := Str("1.1.1.1"),
                               "wan_dns_preference" := Str("")]);
            FirstWan([lan, wan]) == Some(wan) &&
            DnsProjection(wan) == DnsSettings("auto", Some("1.1.1.1"), None, "auto", None, None)
  {
    var lan := Obj(map["purpose" := Str("lan")]);
    var wan := Obj(map["purpose" := Str("wan"), "wan_dns1" := Str("1.1.1.1"),
                       "wan_dns_preference" := Str("")]);
    assert !IsWan(lan) by { assert "lan" != "wan"; }
    assert [lan, wan][1..] == [wan];
  }

  /** `get_dns_settings`: the projection of the WAN network; a failed lookup
      fails before anything is projected. */
  method GetDnsSettings(c: Client, send: Transport) returns (r: Result<DnsSettings>)
    ensures WanNetwork(c, send).Err? ==> r == Err(WanNetwork(c, send).error)
    ensures WanNetwork(c, send).Ok? ==> r == Ok(DnsProjection(WanNetwork(c, send).value))
  {
    var network := GetWanNetwork(c, send);
    if network.Err? {
      return Err(network.error);
    }
    r := Ok(DnsProjection(network.value));
  }
}
