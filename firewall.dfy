/** src/firewall.rs: creating, updating and deleting firewall rules. */
module Firewall {
  import opened Wrappers
  import opened Json
  import opened Api

  /** `get_firewall_rules`: the `data` of the rule collection. */
  function GetFirewallRules(c: Client, send: Transport): (r: Result<Json>)
    ensures r == GetRest(c, "firewallrule", send)
    ensures var resp := send(GetRequest(c, RestUrl(c, "firewallrule")));
            r.Ok? ==> resp.Response? && resp.parsed.Some? && r.value == DataOrEmpty(resp.parsed.value)
  {
    GetRest(c, "firewallrule", send)
  }

  /** `get_firewall_groups`: the `data` of the group collection. */
  function GetFirewallGroups(c: Client, send: Transport): (r: Result<Json>)
    ensures r == GetRest(c, "firewallgroup", send)
    ensures var resp := send(GetRequest(c, RestUrl(c, "firewallgroup")));
            r.Ok? ==> resp.Response? && resp.parsed.Some? && r.value == DataOrEmpty(resp.parsed.value)
  {
    GetRest(c, "firewallgroup", send)
  }

  /** `get_traffic_rules`: the v2 traffic rules, the body as it came. */
  function GetTrafficRules(c: Client, send: Transport): (r: Result<Json>)
    ensures r == GetV2(c, "trafficrules", send)
    ensures var resp := send(GetRequest(c, V2Url(c, "trafficrules")));
            r.Ok? ==> resp.Response? && resp.parsed.Some? && r.value == resp.parsed.value
  {
    GetV2(c, "trafficrules", send)
  }

  /** The sixteen fields the controller expects on a new rule, with the
      values the client sends when the caller does not give them. */
  function DefaultRuleFields(): map<string, Json> {
    map[
      "src_networkconf_type" := Str("NETv4"),
      "dst_networkconf_type" := Str("NETv4"),
      "src_networkconf_id" := Str(""),
      "dst_networkconf_id" := Str(""),
      "src_mac_address" := Str(""),
      "src_firewallgroup_ids" := Arr([]),
      "dst_firewallgroup_ids" := Arr([]),
      "icmp_typename" := Str(""),
      "ipsec" := Str(""),
      "logging" := Bool(false),
      "protocol_match_excepted" := Bool(false),
      "state_established" := Bool(false),
      "state_invalid" := Bool(false),
      "state_new" := Bool(false),
      "state_related" := Bool(false),
      "setting_preference" := Str("manual")
    ]
  }

  /** The body posted for a new rule: the defaults overlaid by the caller's
      fields, the caller winning every collision. */
  function RuleBody(rule: map<string, Json>): (body: map<string, Json>)
    ensures body.Keys == DefaultRuleFields().Keys + rule.Keys
    ensures forall k :: k in rule ==> body[k] == rule[k]
    ensures forall k :: k in DefaultRuleFields() && k !in rule ==> body[k] == DefaultRuleFields()[k]
  {
    DefaultRuleFields() + rule
  }

  /** The body as `create_firewall_rule` builds it: sixteen inserts into an
      empty map, then `extend` with the caller's entries. */
  method BuildRuleBody(rule: map<string, Json>) returns (body: map<string, Json>)
    ensures body == RuleBody(rule)
  {
    body := map[];
    body := body["src_networkconf_type" := Str("NETv4")];
    body := body["dst_networkconf_type" := Str("NETv4")];
    body := body["src_networkconf_id" := Str("")];
    body := body["dst_networkconf_id" := Str("")];
    body := body["src_mac_address" := Str("")];
    body := body["src_firewallgroup_ids" := Arr([])];
    body := body["dst_firewallgroup_ids" := Arr([])];
    body := body["icmp_typename" := Str("")];
    body := body["ipsec" := Str("")];
    body := body["logging" := Bool(false)];
    body := body["protocol_match_excepted" := Bool(false)];
    body := body["state_established" := Bool(false)];
    body := body["state_invalid" := Bool(false)];
    body := body["state_new" := Bool(false)];
    body := body["state_related" := Bool(false)];
    body := body["setting_preference" := Str("manual")];
    assert body == DefaultRuleFields();
    body := Extend(body, rule);
  }

  /** `HashMap::extend`: every entry of `other` is inserted, overwriting the
      value already stored under its key. */
  method Extend(base: map<string, Json>, other: map<string, Json>) returns (m: map<string, Json>)
    ensures m == base + other
  {
    m := base;
    var pending := other.Keys;
    while pending != {}
      invariant pending <= other.Keys
      invariant m.Keys == base.Keys + (other.Keys - pending)
      invariant forall k :: k in other.Keys - pending ==> m[k] == other[k]
      invariant forall k :: k in base && k !in other.Keys - pending ==> m[k] == base[k]
      decreases pending
    {
      var k :| k in pending;
      m := m[k := other[k]];
      pending := pending - {k};
    }
  }

  /** A single rule's resource: the collection URL followed by "/<id>". */
  function RuleUrl(c: Client, id: string): string {
    RestUrl(c, "firewallrule/" + id)
  }

  lemma RuleUrlExtendsCollection(c: Client, id: string)
    ensures RuleUrl(c, id) == RestUrl(c, "firewallrule") + "/" + id
  {
    assert RestUrl(c, "firewallrule/" + id)
        == c.baseUrl + SitePath + "rest/" + ("firewallrule" + "/" + id);
  }

  /** The rule a create or update answer describes: the first element of its
      `data` array, or the whole body when `data` is missing, not an array,
      or empty. */
  function ReturnedRule(body: Json): (r: Json)
    ensures var data := ArrayField(body, "data");
            && (data.Some? && |data.value| > 0 ==> r == data.value[0])
            && (!(data.Some? && |data.value| > 0) ==> r == body)
  {
    match ArrayField(body, "data")
    case Some(data) => if |data| > 0 then data[0] else body
    case None => body
  }

  /** The answer to a create or update: the status rule, the JSON body, the
      returned rule. */
  function RuleResult(resp: Response, context: string): (r: Result<Json>)
    ensures r.Ok? <==> resp.Response? && IsSuccess(resp.status) && resp.parsed.Some?
    ensures r.Ok? ==> r.value == ReturnedRule(resp.parsed.value)
    ensures Acknowledged(resp, context, context).Err? ==> r == Err(Acknowledged(resp, context, context).error)
    ensures resp.Response? && IsSuccess(resp.status) && resp.parsed.None? ==> r == Err(Parse)
  {
    match Received(resp, context, context)
    case Err(e) => Err(e)
    case Ok(body) => Ok(ReturnedRule(body))
  }

  /** `create_firewall_rule`: POST the merged body to the rule collection. */
  method CreateFirewallRule(c: Client, rule: map<string, Json>, send: Transport)
    returns (sent: Request, r: Result<Json>)
    ensures sent.verb == Post && sent.url == RestUrl(c, "firewallrule") && sent.apiKey == c.apiKey
    ensures sent.body == Some(Obj(RuleBody(rule)))
    ensures r == RuleResult(send(sent), "Failed to create firewall rule")
  {
    var body := BuildRuleBody(rule);
    sent := Request(Post, RestUrl(c, "firewallrule"), c.apiKey, Some(Obj(body)));
    r := RuleResult(send(sent), "Failed to create firewall rule");
  }

  /** The PUT of `update_firewall_rule`: the caller's fields and nothing else. */
  function UpdateRuleRequest(c: Client, id: string, fields: map<string, Json>): Request {
    Request(Put, RuleUrl(c, id), c.apiKey, Some(Obj(fields)))
  }

  /** `update_firewall_rule`. */
  function UpdateFirewallRule(c: Client, id: string, fields: map<string, Json>, send: Transport): (r: Result<Json>)
    ensures var resp := send(UpdateRuleRequest(c, id, fields));
            && (r.Ok? <==> resp.Response? && IsSuccess(resp.status) && resp.parsed.Some?)
            && (r.Ok? ==> r.value == ReturnedRule(resp.parsed.value))
            && (resp.Unreachable? ==> r == Err(Transport("Failed to update firewall rule")))
            && (resp.Response? && !IsSuccess(resp.status) ==>
                  r == Err(Status("Failed to update firewall rule", resp.status, resp.text)))
            && (resp.Response? && IsSuccess(resp.status) && resp.parsed.None? ==> r == Err(Parse))
  {
    RuleResult(send(UpdateRuleRequest(c, id, fields)), "Failed to update firewall rule")
  }

  /** Update merges no defaults: it sends exactly the caller's fields, where a
      create with the same fields sends the defaults as well. */
  lemma UpdateSendsOnlyCallerFields(c: Client, id: string, fields: map<string, Json>)
    ensures UpdateRuleRequest(c, id, fields).body == Some(Obj(fields))
    ensures UpdateRuleRequest(c, id, fields).url == RestUrl(c, "firewallrule") + "/" + id
    ensures RuleBody(fields).Keys == UpdateRuleRequest(c, id, fields).body.value.fields.Keys + DefaultRuleFields().Keys
  {
    RuleUrlExtendsCollection(c, id);
  }

  /** The DELETE of `delete_firewall_rule`. */
  function DeleteRuleRequest(c: Client, id: string): Request {
    Request(Delete, RuleUrl(c, id), c.apiKey, None)
  }

  /** `delete_firewall_rule`: success is a 2xx status, whatever the body. */
  function DeleteFirewallRule(c: Client, id: string, send: Transport): (r: Result<()>)
    ensures var resp := send(DeleteRuleRequest(c, id));
            && (r.Ok? <==> resp.Response? && IsSuccess(resp.status))
            && (resp.Unreachable? ==> r == Err(Transport("Failed to delete firewall rule")))
            && (resp.Response? && !IsSuccess(resp.status) ==>
                  r == Err(Status("Failed to delete firewall rule", resp.status, resp.text)))
  {
    Acknowledged(send(DeleteRuleRequest(c, id)), "Failed to delete firewall rule", "Failed to delete firewall rule")
  }

  /** Update and delete address the same resource. */
  lemma UpdateAndDeleteTargetSameRule(c: Client, id: string, fields: map<string, Json>)
    ensures UpdateRuleRequest(c, id, fields).url == DeleteRuleRequest(c, id).url
                                                 == RestUrl(c, "firewallrule") + "/" + id
  {
    RuleUrlExtendsCollection(c, id);
  }
}
