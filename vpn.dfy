/** src/vpn.rs: VPN settings. Optional endpoints that fail read as absent.
    The same code is repeated in src/api.rs:199-230. */
module Vpn {
  import opened Wrappers
  import opened Json
  import opened Api

  /** `get_vpn_teleport`: the "teleport" setting, errors propagated. */
  function GetVpnTeleport(c: Client, send: Transport): (r: Result<Json>)
    ensures r == GetSetting(c, "teleport", send)
    ensures var resp := send(GetRequest(c, SettingUrl(c, "teleport")));
            resp.Response? && IsSuccess(resp.status) && resp.parsed.Some? &&
            ArrayField(resp.parsed.value, "data") == Some([]) ==>
              r == Err(NotFound(SettingNotFound("teleport")))
  {
    GetSetting(c, "teleport", send)
  }

  /** `get_vpn_site_to_site`: the "magic_site_to_site_vpn" setting, errors
      propagated. */
  function GetVpnSiteToSite(c: Client, send: Transport): (r: Result<Json>)
    ensures r == GetSetting(c, "magic_site_to_site_vpn", send)
    ensures var resp := send(GetRequest(c, SettingUrl(c, "magic_site_to_site_vpn")));
            resp.Response? && IsSuccess(resp.status) && resp.parsed.Some? &&
            ArrayField(resp.parsed.value, "data") == Some([]) ==>
              r == Err(NotFound(SettingNotFound("magic_site_to_site_vpn")))
  {
    GetSetting(c, "magic_site_to_site_vpn", send)
  }

  /** `get_vpn_servers`: the WireGuard list (empty when its fetch fails) and,
      only when its fetch succeeds, the OpenVPN setting. Never an error. */
  method GetVpnServers(c: Client, send: Transport) returns (r: Result<Json>)
    ensures r.Ok? && r.value.Obj?
    ensures r.value.fields.Keys <= {"wireguard", "openvpn"}
    ensures "wireguard" in r.value.fields
    ensures var wg := GetRest(c, "wg", send);
            r.value.fields["wireguard"] == if wg.Ok? then wg.value else Arr([])
    ensures var ovpn := GetSetting(c, "openvpn", send);
            && ("openvpn" in r.value.fields <==> ovpn.Ok?)
            && (ovpn.Ok? ==> r.value.fields["openvpn"] == ovpn.value)
  {
    var wgResult := GetRest(c, "wg", send);
    var wg := if wgResult.Ok? then wgResult.value else Arr([]);
    var openvpn := GetSetting(c, "openvpn", send);
    var result := map["wireguard" := wg];
    if openvpn.Ok? {
      result := result["openvpn" := openvpn.value];
    }
    r := Ok(Obj(result));
  }

  /** `get_vpn_clients`: the remote-site IPsec list, or an empty array when
      its fetch fails. Never an error. */
  function GetVpnClients(c: Client, send: Transport): (r: Result<Json>)
    ensures r.Ok?
    ensures GetRest(c, "remotesiteipsec", send).Ok? ==> r == GetRest(c, "remotesiteipsec", send)
    ensures GetRest(c, "remotesiteipsec", send).Err? ==> r.value == Arr([])
  {
    match GetRest(c, "remotesiteipsec", send)
    case Ok(v) => Ok(v)
    case Err(_) => Ok(Arr([]))
  }
}
