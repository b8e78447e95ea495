# unifi-cli in Dafny

A model of the logic inside `unifi`, a command-line client for the UniFi
controller's HTTP API. The client sends one or two GET, POST, PUT or DELETE
requests per command and reshapes the JSON that comes back. This model covers
the decisions it makes along the way:

- how a host becomes a base URL;
- which URL each call targets;
- how a non-2xx status becomes an error;
- how REST, stat, v2 and setting envelopes are unwrapped;
- how the WAN network is found and its DNS fields projected;
- how offline clients are computed from the "all" and "online" lists;
- how the firewall rule body is merged with its defaults, and how a created
  or updated rule is read back;
- how the VPN calls swallow failures of optional sub-fetches;
- how the command line builds the client, the saved configuration, and the
  field maps of `firewall add` and `firewall update`.

The network is an input. A `Transport` is a function from a `Request` (verb,
URL, API key, optional JSON body) to a `Response`. A `Response` is either
`Unreachable` or a status with the body text and, when the body is JSON, the
parsed document. Each operation is stated against the answer `send` gives to
the exact request the operation builds.

Modules, one per source file:

- `Wrappers`: `Option`.
- `Json`: serde's `Value` and its accessors.
- `Api`: src/api.rs.
- `Internet`: src/internet.rs.
- `Clients`: src/clients.rs.
- `Firewall`: src/firewall.rs.
- `Vpn`: src/vpn.rs.
- `Cli`: the arms of src/main.rs that build something.

Several copies are modelled once:

- src/api.rs repeats the WAN and DNS code of src/internet.rs (src/api.rs:40-98).
- src/api.rs repeats the VPN code of src/vpn.rs (src/api.rs:199-230).
- src/api.rs repeats the clients code of src/clients.rs (src/api.rs:271-311).
- src/api.rs repeats the firewall getters of src/firewall.rs (src/api.rs:184-197).

Where the source builds something by successive mutation, the model is a
method. The WAN scan, the sixteen default inserts followed by `extend`, and
the add and update field maps are each proved equal to a specification
function, and the properties are proved about those functions. The VPN
server object and the config merge state their result directly in their
`ensures`.

## Model

| member | source | states |
|---|---|---|
| Api.NewClient | src/api.rs:27-36 | A host starting with "http" is kept unchanged; any other host gets "https://" in front. The API key is stored verbatim, and the base URL always starts with "http". |
| Api.NewClientIdempotent | src/api.rs:27-31 | Building a client from an already built base URL gives the same client. |
| Api.HttpPrefixedHostKeptAsIs | src/api.rs:27-28 | The prefix test is textual: a host such as "httpbin.lan" gets no scheme added. |
| Api.SettingUrlIsRestUrl | src/api.rs:102-105 | A setting URL is the REST URL of the endpoint "setting/<key>". |
| Api.RestUrlInjective | src/api.rs:138-141 | Different endpoints give different REST URLs. |
| Api.TemplatesDisjoint | src/api.rs:138-165 | No REST URL equals a stat or v2 URL, and no stat URL equals a v2 URL. |
| Api.Acknowledged | src/api.rs:151-155 | The status rule: Ok exactly for a 2xx response. No response is a transport error. A non-2xx response is an error carrying the status and the body text. |
| Api.Received | src/api.rs:151-157 | The status rule, then the parsed body. A 2xx response whose body is not JSON is a parse error. |
| Api.DataOrEmpty | src/api.rs:158 | The `data` member as it is, whatever its kind, or an empty array when it is missing. |
| Api.GetRest | src/api.rs:137-159 | GET on `.../rest/<endpoint>`. It succeeds exactly on a 2xx JSON answer, with the `data` member or []. No answer fails with "Failed to fetch data". A non-2xx answer fails with "Failed to get <endpoint>", the status and the body. A 2xx answer that is not JSON is a parse error. |
| Api.GetStat | src/api.rs:242-264 | GET on `.../stat/<endpoint>`, with the same unwrapping and the same three errors as `get_rest`. |
| Api.GetV2 | src/api.rs:161-182 | GET on `/proxy/network/v2/api/site/default/<endpoint>`. It succeeds exactly on a 2xx JSON answer, with the whole parsed body and no unwrapping. Otherwise the errors are as for `get_rest`. |
| Api.GetSetting | src/api.rs:101-130 | GET on `.../rest/setting/<key>`. It succeeds exactly on a 2xx JSON answer whose `data` is a non-empty array, and then the result is `data[0]`. When `data` is missing, not an array, or empty, it fails with "Setting '<key>' not found". Fetch, status and parse errors come first. |
| Internet.FirstWanIsFirstMatch | src/internet.rs:40-47 | The search returns `w` exactly when `w` is a network whose purpose is "wan" and no earlier network's purpose is "wan". |
| Internet.FirstWanNoneIffNoWan | src/internet.rs:40-49 | The search finds nothing exactly when no network's purpose is the string "wan". |
| Internet.FindWan | src/internet.rs:41-46 | The loop with its early return computes the first-match search. What it returns is a WAN network from the list. |
| Internet.WanInBody | src/internet.rs:40-49 | From a `networkconf` body, the result is the first network whose purpose is "wan". It fails with "No WAN network found" exactly when none matches, and a missing or non-array `data` counts as an empty list. |
| Internet.WanNetwork | src/internet.rs:18-50 | Fetch and status failures of `networkconf`, with their own messages, come before the search. |
| Internet.GetWanNetwork | src/internet.rs:18-50 | Fetch, status check, then the loop, equal to `WanNetwork`. A success is always a WAN network. |
| Internet.GetWanSettings | src/internet.rs:53-55 | Exactly the result of `get_wan_network`. |
| Internet.NonEmptyStr | src/internet.rs:61-67 | `get_str` gives Some(s) exactly when the member is present, is a string, and is not empty, and then s is that string. |
| Internet.DnsProjection | src/internet.rs:69-76 | Both modes are the preference value, or "auto" when `get_str` gives nothing. The four servers are `get_str` of their fields. No field is ever the empty string. |
| Internet.EmptyFieldSameAsMissing | src/internet.rs:61-76 | Setting any member to "" projects the same settings as removing it. |
| Internet.LanThenWanScenario | src/internet.rs:40-76 | A LAN entry before a WAN entry is skipped. An empty preference reads "auto". Unset servers are absent. |
| Internet.GetDnsSettings | src/internet.rs:58-77 | A failed WAN lookup fails the call before any projection. Otherwise the result is the projection of the WAN network. |
| Clients.GetClientsAll | src/clients.rs:13-15 | `get_rest("user")`: on success, the `data` of the `.../rest/user` answer. |
| Clients.GetClientsOnline | src/clients.rs:8-10 | `get_stat("sta")`: on success, the `data` of the `.../stat/sta` answer. |
| Clients.MacsOfSpec | src/clients.rs:22-29 | A MAC is collected exactly when some element carries it as a string `mac`. |
| Clients.OnlineMacs | src/clients.rs:22-29 | `online_macs` is exactly the set of string MACs of the online array, and is empty when "online" is not an array. |
| Clients.KeepOfflineAppend | src/clients.rs:31-43 | The filter distributes over concatenation, so relative order is kept. |
| Clients.KeepOfflineCounts | src/clients.rs:35-40 | Each element appears in the result as many times as in "all" when it is offline, and not at all otherwise. Duplicates are kept. |
| Clients.KeepOfflineIsSubsequence | src/clients.rs:31-43 | The result is a subsequence of "all". |
| Clients.KeepOfflineNoneOnline | src/clients.rs:36-40 | With no online MACs, every element is kept, including elements without a MAC. |
| Clients.OfflineClients | src/clients.rs:31-46 | The result is an array. For an array "all" it is the order- and duplicate-preserving filter `KeepOffline` of "all". An element is in it exactly when it is in "all" and either its MAC is not online or it has no string MAC. A non-array "all" gives []. |
| Clients.OfflineDisjointFromOnline | src/clients.rs:22-43 | No offline element has the same string MAC as an online element. |
| Clients.OfflineWhenOnlineNotArray | src/clients.rs:22-46 | When "online" is not an array, the result is "all" itself. |
| Clients.GetClientsOffline | src/clients.rs:18-47 | It succeeds exactly when both fetches succeed. The "all" error is reported first, then the "online" error. On success the result is the offline filter of the two lists. |
| Firewall.GetFirewallRules | src/firewall.rs:8-10 | `get_rest("firewallrule")`: on success, the `data` of that answer. |
| Firewall.GetFirewallGroups | src/firewall.rs:13-15 | `get_rest("firewallgroup")`: on success, the `data` of that answer. |
| Firewall.GetTrafficRules | src/firewall.rs:18-20 | `get_v2("trafficrules")`: on success, the whole v2 body. |
| Firewall.RuleBody | src/firewall.rs:32-51 | The key set is the sixteen defaults plus the caller's keys. Every caller key keeps the caller's value. Every default key the caller leaves out keeps its default. |
| Firewall.BuildRuleBody | src/firewall.rs:32-51 | The sixteen inserts followed by `extend` build exactly `RuleBody`. |
| Firewall.Extend | src/firewall.rs:51 | The loop inserting each caller entry yields the defaults overlaid by the caller's map. |
| Firewall.RuleUrlExtendsCollection | src/firewall.rs:83-86 | A single rule's URL is the collection URL followed by "/<id>". |
| Firewall.ReturnedRule | src/firewall.rs:69-74 | The first element of `data` when it is a non-empty array. Otherwise, including an empty `data`, the whole body. |
| Firewall.RuleResult | src/firewall.rs:62-74 | The status rule with the operation's own message, then the returned rule. A 2xx answer that is not JSON is a parse error. |
| Firewall.CreateFirewallRule | src/firewall.rs:23-75 | A POST to the collection URL whose body is `RuleBody(rule)`. The result is read back by `RuleResult`. |
| Firewall.UpdateFirewallRule | src/firewall.rs:78-110 | A PUT of the caller's fields to the rule URL. The result is the returned rule exactly on a 2xx JSON answer. No answer and a non-2xx answer fail with "Failed to update firewall rule", the latter with status and body. A 2xx answer that is not JSON is a parse error. |
| Firewall.UpdateSendsOnlyCallerFields | src/firewall.rs:88-93 | The update body is exactly the caller's map, with no defaults merged in, while a create of the same map adds the defaults. |
| Firewall.DeleteFirewallRule | src/firewall.rs:113-134 | A DELETE of the rule URL succeeds with unit exactly on a 2xx status, whatever the body. Otherwise it fails with "Failed to delete firewall rule". |
| Firewall.UpdateAndDeleteTargetSameRule | src/firewall.rs:114-117 | Update and delete address the same URL: the collection URL followed by "/<id>". |
| Vpn.GetVpnTeleport | src/vpn.rs:8-10 | `get_setting("teleport")` with errors propagated. An empty `data` fails with "Setting 'teleport' not found". |
| Vpn.GetVpnSiteToSite | src/vpn.rs:13-15 | `get_setting("magic_site_to_site_vpn")` with errors propagated. An empty `data` fails with that setting's not-found message. |
| Vpn.GetVpnServers | src/vpn.rs:17-29 | Never an error. The object has `wireguard` (the `wg` result, or [] on any failure) and at most `openvpn`. `openvpn` is present exactly when the setting fetch succeeds, holding that setting. |
| Vpn.GetVpnClients | src/vpn.rs:31-36 | Never an error: the `remotesiteipsec` result on success, or [] on any failure. |
| Cli.GetClient | src/main.rs:221-230 | A config load failure propagates. A missing host fails first with its own message, then a missing API key with its own message. Otherwise the result is `Client::new(host, key)`. |
| Cli.ConfigCommand | src/main.rs:238-245 | It starts from the loaded config, or the default one when loading fails. Each given option overwrites its field, and an absent option leaves the field as it was. |
| Cli.AddRuleKeysExact | src/main.rs:316-329 | The add map has exactly the thirteen keys. |
| Cli.AddRuleRequired | src/main.rs:317-320 | `name`, `action`, `ruleset` and `rule_index` hold the command's values. |
| Cli.AddRuleFlags | src/main.rs:321-322 | `enabled` is the flag or true; `logging` is the flag or false. |
| Cli.AddRuleMatchDefaults | src/main.rs:323-329 | `protocol` defaults to "all", addresses and ports to "", group lists to []. |
| Cli.BuildAddRule | src/main.rs:316-329 | The thirteen inserts build exactly `AddRule`. |
| Cli.CallerKeysWin | src/firewall.rs:32-51 | Merging any map with exactly the add keys into the defaults gives the defaults' keys plus the add keys, with every add key winning and `setting_preference` left at "manual". |
| Cli.AddBodyCarriesCommandValues | src/main.rs:321-322 | The posted body holds every add-map value, so `enabled` and `logging` are always the command's values and never the create default for `logging`. |
| Cli.FirewallAdd | src/main.rs:315-330 | A client error stops the arm before any request is sent. Otherwise it POSTs `RuleBody(AddRule(args))` to the rule collection and reads the answer back with the create message. |
| Cli.InsertGivenKeepsOthers | src/main.rs:350-361 | A key no option names is left untouched by the conditional inserts. |
| Cli.InsertGivenMirrors | src/main.rs:350-361 | With distinct keys, each key ends up present exactly when its option is given, holding its value. |
| Cli.InsertGivenKeys | src/main.rs:350-361 | Only keys some option names can appear. |
| Cli.InsertIfGiven | src/main.rs:350 | One `if let Some(v)` insert. |
| Cli.UpdateFieldsMirrorOptions | src/main.rs:349-361 | Each of the twelve keys is present exactly when its option is Some, with that value. Only those twelve keys can appear, so neither `ruleset` nor `id` ever does. |
| Cli.BuildUpdateFields | src/main.rs:349-361 | The twelve conditional inserts build exactly `UpdateFields`. |
| Cli.FirewallUpdate | src/main.rs:348-362 | A client error stops the arm. Otherwise it PUTs exactly `UpdateFields(args)` to the collection URL followed by "/<id>". That map holds only the twelve update keys, never `id`, and mirrors the given options. |

## Left out

- HTTP itself is not modelled: reqwest, the `X-API-Key` header attachment, async/await and TLS certificate acceptance. A call is modelled as the answer `send` gives to the request the model builds.
- A failure to build the reqwest client in `Client::new` is not modelled. `NewClient` cannot fail.
- `send` is a function, so two identical requests get the same answer. Timing, retries, and the controller's state changing between requests are not modelled.
- DELETE idempotence is not stated. The controller's state is not modelled.
- JSON parsing and printing are not modelled. A body that does not parse is `parsed == None`, and the resulting error has no context text. serde's messages and `get_v2`'s "Failed to parse response" context are not kept.
- Numbers are integers only. The client builds only integer numbers (the rule index) and never inspects a number it receives.
- The key order of a JSON object is not modelled. Maps are unordered here.
- The `{}` formatting of a status in error messages is not modelled. Errors keep the status as a number and the body text as a string.
- src/config.rs file reading and writing is not modelled. The loaded configuration is an input (`Result<Config>`), and `ConfigCommand` returns the configuration that would be saved.
- clap argument parsing and dispatch are not modelled, nor the printing of results. For example, only `Some(true)` or `None` can come from the `--enabled` and `--logging` flags of `firewall add`.
- Cli.AddRule: `enabled` and `logging` are taken as optional values, with the clap defaults (true, false) applied when absent.
- src/dns.rs, src/security.rs, src/devices.rs, src/networks.rs and src/wifi.rs are not part of this model. They are one-line delegations to the same primitives with a fixed endpoint, plus a constant JSON literal.
- `kick_client`, called by the reconnect command at src/main.rs:426, is not part of this model.
