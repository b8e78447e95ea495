/** The parts of src/main.rs that build something: the client from the
    saved configuration, the `config` command's merge, and the field maps of
    `firewall add` and `firewall update`. */
module Cli {
  import opened Wrappers
  import opened Json
  import opened Api
  import Firewall

  /** The saved configuration (src/config.rs); both fields are optional. */
  datatype Config = Config(host: Option<string>, apiKey: Option<string>)

  /** `Config::default()`. */
  const DefaultConfig := Config(None, None)

  /** `get_client`: the host is checked first, then the API key; a config
      that cannot be loaded fails before either. */
  function GetClient(loaded: Result<Config>): (r: Result<Client>)
    ensures loaded.Err? ==> r == Err(loaded.error)
    ensures loaded.Ok? && loaded.value.host.None? ==>
              r == Err(NotConfigured("Not configured. Run 'unifi config' first"))
    ensures loaded.Ok? && loaded.value.host.Some? && loaded.value.apiKey.None? ==>
              r == Err(NotConfigured("API key not configured. Run 'unifi config' first"))
    ensures r.Ok? <==> loaded.Ok? && loaded.value.host.Some? && loaded.value.apiKey.Some?
    ensures r.Ok? ==> r.value == NewClient(loaded.value.host.value, loaded.value.apiKey.value)
  {
    match loaded
    case Err(e) => Err(e)
    case Ok(cfg) =>
      match cfg.host
      case None => Err(NotConfigured("Not configured. Run 'unifi config' first"))
      case Some(host) =>
        match cfg.apiKey
        case None => Err(NotConfigured("API key not configured. Run 'unifi config' first"))
        case Some(apiKey) => Ok(NewClient(host, apiKey))
  }

  /** The `config` command: start from the saved configuration (the default
      one when it cannot be loaded) and overwrite each field that was given. */
  method ConfigCommand(loaded: Result<Config>, host: Option<string>, apiKey: Option<string>)
    returns (cfg: Config)
    ensures var base := if loaded.Ok? then loaded.value else DefaultConfig;
            && cfg.host == (if host.Some? then host else base.host)
            && cfg.apiKey == (if apiKey.Some? then apiKey else base.apiKey)
  {
    cfg := if loaded.Ok? then loaded.value else DefaultConfig;
    if host.Some? {
      cfg := cfg.(host := Some(host.value));
    }
    if apiKey.Some? {
      cfg := cfg.(apiKey := Some(apiKey.value));
    }
  }

  newtype u32 = x: int | 0 <= x < 0x1_0000_0000

  /** The options of `firewall add`; `enabled` and `logging` are None when the
      flag was not given on the command line. */
  datatype AddArgs = AddArgs(
    name: string,
    action: string,
    ruleset: string,
    ruleIndex: u32,
    srcAddress: Option<string>,
    dstAddress: Option<string>,
    protocol: Option<string>,
    srcPort: Option<string>,
    dstPort: Option<string>,
    srcFirewallGroupIds: Option<seq<string>>,
    dstFirewallGroupIds: Option<seq<string>>,
    enabled: Option<bool>,
    logging: Option<bool>)

  const AddRuleKeys: set<string> := {
    "name", "action", "ruleset", "rule_index", "enabled", "logging", "protocol",
    "src_address", "dst_address", "src_port", "dst_port",
    "src_firewallgroup_ids", "dst_firewallgroup_ids"
  }

  /** The rule map of `firewall add`: every key is always present, the
      optional ones with their defaults. */
  function AddRule(args: AddArgs): map<string, Json> {
    map[
      "name" := Str(args.name),
      "action" := Str(args.action),
      "ruleset" := Str(args.ruleset),
      "rule_index" := Num(args.ruleIndex as int),
      "enabled" := Bool(args.enabled.GetOr(true)),
      "logging" := Bool(args.logging.GetOr(false)),
      "protocol" := Str(args.protocol.GetOr("all")),
      "src_address" := Str(args.srcAddress.GetOr("")),
      "dst_address" := Str(args.dstAddress.GetOr("")),
      "src_port" := Str(args.srcPort.GetOr("")),
      "dst_port" := Str(args.dstPort.GetOr("")),
      "src_firewallgroup_ids" := Strings(args.srcFirewallGroupIds.GetOr([])),
      "dst_firewallgroup_ids" := Strings(args.dstFirewallGroupIds.GetOr([]))
    ]
  }

  /** The add map always has exactly the thirteen keys. */
  lemma AddRuleKeysExact(args: AddArgs)
    ensures AddRule(args).Keys == AddRuleKeys
  {
  }

  /** The four required options are stored verbatim. */
  lemma AddRuleRequired(args: AddArgs)
    ensures var rule := AddRule(args);
            && rule["name"] == Str(args.name) && rule["action"] == Str(args.action)
            && rule["ruleset"] == Str(args.ruleset) && rule["rule_index"] == Num(args.ruleIndex as int)
  {
  }

  /** The flags, or true for `enabled` and false for `logging`. */
  lemma AddRuleFlags(args: AddArgs)
    ensures var rule := AddRule(args);
            && rule["enabled"] == Bool(args.enabled.GetOr(true))
            && rule["logging"] == Bool(args.logging.GetOr(false))
  {
  }

  /** The match options, or their defaults: "all" for the protocol, "" for
      addresses and ports, [] for group lists. */
  lemma AddRuleMatchDefaults(args: AddArgs)
    ensures var rule := AddRule(args);
            && rule["protocol"] == Str(args.protocol.GetOr("all"))
            && rule["src_address"] == Str(args.srcAddress.GetOr(""))
            && rule["dst_address"] == Str(args.dstAddress.GetOr(""))
            && rule["src_port"] == Str(args.srcPort.GetOr(""))
            && rule["dst_port"] == Str(args.dstPort.GetOr(""))
            && rule["src_firewallgroup_ids"] == Strings(args.srcFirewallGroupIds.GetOr([]))
            && rule["dst_firewallgroup_ids"] == Strings(args.dstFirewallGroupIds.GetOr([]))
  {
  }

  /** The thirteen unconditional inserts of the `firewall add` arm. */
  method BuildAddRule(args: AddArgs) returns (rule: map<string, Json>)
    ensures rule == AddRule(args)
  {
    rule := map[];
    rule := rule["name" := Str(args.name)];
    rule := rule["action" := Str(args.action)];
    rule := rule["ruleset" := Str(args.ruleset)];
    rule := rule["rule_index" := Num(args.ruleIndex as int)];
    rule := rule["enabled" := Bool(args.enabled.GetOr(true))];
    rule := rule["logging" := Bool(args.logging.GetOr(false))];
    rule := rule["protocol" := Str(args.protocol.GetOr("all"))];
    rule := rule["src_address" := Str(args.srcAddress.GetOr(""))];
    rule := rule["dst_address" := Str(args.dstAddress.GetOr(""))];
    rule := rule["src_port" := Str(args.srcPort.GetOr(""))];
    rule := rule["dst_port" := Str(args.dstPort.GetOr(""))];
    rule := rule["src_firewallgroup_ids" := Strings(args.srcFirewallGroupIds.GetOr([]))];
    rule := rule["dst_firewallgroup_ids" := Strings(args.dstFirewallGroupIds.GetOr([]))];
  }

  /** The `firewall add` arm: load the client, build the map, create the
      rule with the defaults underneath it. */
  method FirewallAdd(loaded: Result<Config>, args: AddArgs, send: Transport)
    returns (sent: Option<Request>, r: Result<Json>)
    ensures GetClient(loaded).Err? ==> sent.None? && r == Err(GetClient(loaded).error)
    ensures GetClient(loaded).Ok? ==>
              && sent.Some? && sent.value.verb == Post
              && sent.value.url == RestUrl(GetClient(loaded).value, "firewallrule")
              && sent.value.body == Some(Obj(Firewall.RuleBody(AddRule(args))))
    ensures sent.Some? ==> r == Firewall.RuleResult(send(sent.value), "Failed to create firewall rule")
  {
    var client := GetClient(loaded);
    if client.Err? {
      return None, Err(client.error);
    }
    var rule := BuildAddRule(args);
    var request, created := Firewall.CreateFirewallRule(client.value, rule, send);
    sent, r := Some(request), created;
  }

  /** What `firewall add` posts: the sixteen defaults and the thirteen add
      keys. Since `enabled` and `logging` are always in the add map, the
      command's values win over the create defaults; a default the add map
      does not name, such as `setting_preference`, is kept. */
  lemma AddBodyCarriesCommandValues(args: AddArgs)
    ensures var body := Firewall.RuleBody(AddRule(args));
            && body.Keys == Firewall.DefaultRuleFields().Keys + AddRuleKeys
            && (forall k :: k in AddRuleKeys ==> body[k] == AddRule(args)[k])
            && body["logging"] == Bool(args.logging.GetOr(false))
            && body["enabled"] == Bool(args.enabled.GetOr(true))
            && body["setting_preference"] == Str("manual")
  {
    AddRuleKeysExact(args);
    AddRuleFlags(args);
    CallerKeysWin(AddRule(args));
  }

  /** Any map with exactly the add keys overrides the defaults it names and
      leaves `setting_preference` at "manual". */
  lemma CallerKeysWin(rule: map<string, Json>)
    requires rule.Keys == AddRuleKeys
    ensures var body := Firewall.RuleBody(rule);
            && body.Keys == Firewall.DefaultRuleFields().Keys + AddRuleKeys
            && (forall k :: k in AddRuleKeys ==> body[k] == rule[k])
            && body["setting_preference"] == Str("manual")
  {
    assert "setting_preference" !in AddRuleKeys;
    assert Firewall.DefaultRuleFields()["setting_preference"] == Str("manual");
  }

  /** The keys `firewall update` can set: those of `firewall add` but the
      ruleset. */
  const UpdateRuleKeys: set<string> := {
    "name", "action", "rule_index", "enabled", "logging", "protocol",
    "src_address", "dst_address", "src_port", "dst_port",
    "src_firewallgroup_ids", "dst_firewallgroup_ids"
  }

  /** The options of `firewall update`: the rule id, then one optional value
      per field. */
  datatype UpdateArgs = UpdateArgs(
    id: string,
    name: Option<string>,
    action: Option<string>,
    ruleIndex: Option<u32>,
    srcAddress: Option<string>,
    dstAddress: Option<string>,
    protocol: Option<string>,
    srcPort: Option<string>,
    dstPort: Option<string>,
    srcFirewallGroupIds: Option<seq<string>>,
    dstFirewallGroupIds: Option<seq<string>>,
    enabled: Option<bool>,
    logging: Option<bool>)

  /** `key` is in the map exactly when a value is given, with that value. */
  predicate Mirrors(fields: map<string, Json>, key: string, value: Option<Json>) {
    && (key in fields <==> value.Some?)
    && (value.Some? ==> fields[key] == value.value)
  }

  /** `json!(v)` for each kind of option, kept optional. */
  function StrOption(o: Option<string>): Option<Json> {
    if o.Some? then Some(Str(o.value)) else None
  }

  function BoolOption(o: Option<bool>): Option<Json> {
    if o.Some? then Some(Bool(o.value)) else None
  }

  function IndexOption(o: Option<u32>): Option<Json> {
    if o.Some? then Some(Num(o.value as int)) else None
  }

  function IdsOption(o: Option<seq<string>>): Option<Json> {
    if o.Some? then Some(Strings(o.value)) else None
  }

  /** The options of `firewall update` with the keys they are stored under,
      in the order the arm inserts them. */
  function UpdateEntries(args: UpdateArgs): seq<(string, Option<Json>)> {
    [ ("name", StrOption(args.name)),
      ("action", StrOption(args.action)),
      ("rule_index", IndexOption(args.ruleIndex)),
      ("src_address", StrOption(args.srcAddress)),
      ("dst_address", StrOption(args.dstAddress)),
      ("protocol", StrOption(args.protocol)),
      ("src_port", StrOption(args.srcPort)),
      ("dst_port", StrOption(args.dstPort)),
      ("src_firewallgroup_ids", IdsOption(args.srcFirewallGroupIds)),
      ("dst_firewallgroup_ids", IdsOption(args.dstFirewallGroupIds)),
      ("enabled", BoolOption(args.enabled)),
      ("logging", BoolOption(args.logging)) ]
  }

  predicate DistinctKeys(entries: seq<(string, Option<Json>)>) {
    forall i, j :: 0 <= i < j < |entries| ==> entries[i].0 != entries[j].0
  }

  /** One `if let Some(v) = option { fields.insert(key, v) }`. */
  function InsertOne(fields: map<string, Json>, entry: (string, Option<Json>)): map<string, Json> {
    if entry.1.Some? then fields[entry.0 := entry.1.value] else fields
  }

  /** The effect of inserting, in order from entry `n` on, every entry whose
      value is given. */
  function InsertGiven(fields: map<string, Json>, entries: seq<(string, Option<Json>)>, n: nat): map<string, Json>
    requires n <= |entries|
    decreases |entries| - n
  {
    if n == |entries| then fields
    else InsertGiven(InsertOne(fields, entries[n]), entries, n + 1)
  }

  /** A key no remaining entry names is left as it was. */
  lemma {:induction false} InsertGivenKeepsOthers(fields: map<string, Json>, entries: seq<(string, Option<Json>)>, n: nat, k: string)
    requires n <= |entries|
    requires forall i :: n <= i < |entries| ==> entries[i].0 != k
    ensures k in InsertGiven(fields, entries, n) <==> k in fields
    ensures k in fields ==> InsertGiven(fields, entries, n)[k] == fields[k]
    decreases |entries| - n
  {
    if n < |entries| {
      InsertGivenKeepsOthers(InsertOne(fields, entries[n]), entries, n + 1, k);
    }
  }

  /** With distinct keys, each key ends up present exactly when its value is
      given, holding that value. */
  lemma {:induction false} InsertGivenMirrors(fields: map<string, Json>, entries: seq<(string, Option<Json>)>, n: nat, i: nat)
    requires DistinctKeys(entries) && n <= i < |entries| && entries[i].0 !in fields
    ensures Mirrors(InsertGiven(fields, entries, n), entries[i].0, entries[i].1)
    decreases i - n
  {
    var next := InsertOne(fields, entries[n]);
    if i == n {
      InsertGivenKeepsOthers(next, entries, n + 1, entries[i].0);
    } else {
      InsertGivenMirrors(next, entries, n + 1, i);
    }
  }

  /** Only keys some remaining entry names can appear. */
  lemma {:induction false} InsertGivenKeys(fields: map<string, Json>, entries: seq<(string, Option<Json>)>, n: nat, k: string)
    requires n <= |entries| && k in InsertGiven(fields, entries, n) && k !in fields
    ensures exists i :: n <= i < |entries| && entries[i].0 == k
    decreases |entries| - n
  {
    if n < |entries| {
      if k != entries[n].0 {
        InsertGivenKeys(InsertOne(fields, entries[n]), entries, n + 1, k);
      }
    } else {
      assert false;
    }
  }

  /** `if let Some(v) = option { fields.insert(key, json!(v)); }` */
  method InsertIfGiven(fields: map<string, Json>, key: string, value: Option<Json>)
    returns (r: map<string, Json>)
    ensures r == InsertOne(fields, (key, value))
  {
    r := fields;
    if value.Some? {
      r := r[key := value.value];
    }
  }

  /** The field map `firewall update` sends. */
  function UpdateFields(args: UpdateArgs): map<string, Json> {
    InsertGiven(map[], UpdateEntries(args), 0)
  }

  /** A key is in the update map exactly when its option is given, holding
      the option's value; no other key, and never the id, is stored. */
  lemma UpdateFieldsMirrorOptions(args: UpdateArgs)
    ensures forall i :: 0 <= i < |UpdateEntries(args)| ==>
              Mirrors(UpdateFields(args), UpdateEntries(args)[i].0, UpdateEntries(args)[i].1)
    ensures UpdateFields(args).Keys <= UpdateRuleKeys
    ensures "id" !in UpdateFields(args)
  {
    var entries := UpdateEntries(args);
    assert DistinctKeys(entries);
    forall i | 0 <= i < |entries| ensures Mirrors(UpdateFields(args), entries[i].0, entries[i].1) {
      InsertGivenMirrors(map[], entries, 0, i);
    }
    forall k | k in UpdateFields(args) ensures k in UpdateRuleKeys {
      InsertGivenKeys(map[], entries, 0, k);
    }
    InsertGivenKeepsOthers(map[], entries, 0, "id");
  }

  /** The field map of `firewall update`: one conditional insert per option. */
  method BuildUpdateFields(args: UpdateArgs) returns (fields: map<string, Json>)
    ensures fields == UpdateFields(args)
  {
    ghost var entries := UpdateEntries(args);
    fields := map[];
    assert UpdateFields(args) == InsertGiven(fields, entries, 0);
    fields := InsertIfGiven(fields, "name", StrOption(args.name));
    assert UpdateFields(args) == InsertGiven(fields, entries, 1);
    fields := InsertIfGiven(fields, "action", StrOption(args.action));
    assert UpdateFields(args) == InsertGiven(fields, entries, 2);
    fields := InsertIfGiven(fields, "rule_index", IndexOption(args.ruleIndex));
    assert UpdateFields(args) == InsertGiven(fields, entries, 3);
    fields := InsertIfGiven(fields, "src_address", StrOption(args.srcAddress));
    assert UpdateFields(args) == InsertGiven(fields, entries, 4);
    fields := InsertIfGiven(fields, "dst_address", StrOption(args.dstAddress));
    assert UpdateFields(args) == InsertGiven(fields, entries, 5);
    fields := InsertIfGiven(fields, "protocol", StrOption(args.protocol));
    assert UpdateFields(args) == InsertGiven(fields, entries, 6);
    fields := InsertIfGiven(fields, "src_port", StrOption(args.srcPort));
    assert UpdateFields(args) == InsertGiven(fields, entries, 7);
    fields := InsertIfGiven(fields, "dst_port", StrOption(args.dstPort));
    assert UpdateFields(args) == InsertGiven(fields, entries, 8);
    fields := InsertIfGiven(fields, "src_firewallgroup_ids", IdsOption(args.srcFirewallGroupIds));
    assert UpdateFields(args) == InsertGiven(fields, entries, 9);
    fields := InsertIfGiven(fields, "dst_firewallgroup_ids", IdsOption(args.dstFirewallGroupIds));
    assert UpdateFields(args) == InsertGiven(fields, entries, 10);
    fields := InsertIfGiven(fields, "enabled", BoolOption(args.enabled));
    assert UpdateFields(args) == InsertGiven(fields, entries, 11);
    fields := InsertIfGiven(fields, "logging", BoolOption(args.logging));
    assert UpdateFields(args) == InsertGiven(fields, entries, 12);
  }

  /** The `firewall update` arm: load the client, build the map, PUT it to
      the rule named by the id. */
  method FirewallUpdate(loaded: Result<Config>, args: UpdateArgs, send: Transport)
    returns (sent: Option<Request>, r: Result<Json>)
    ensures GetClient(loaded).Err? ==> sent.None? && r == Err(GetClient(loaded).error)
    ensures GetClient(loaded).Ok? ==>
              && sent.Some? && sent.value.verb == Put
              && sent.value.url == RestUrl(GetClient(loaded).value, "firewallrule") + "/" + args.id
              && sent.value.body == Some(Obj(UpdateFields(args)))
    ensures sent.Some? ==>
              var body := sent.value.body.value.fields;
              && body.Keys <= UpdateRuleKeys && "id" !in body
              && Mirrors(body, "enabled", BoolOption(args.enabled))
              && Mirrors(body, "logging", BoolOption(args.logging))
              && Mirrors(body, "name", StrOption(args.name))
              && r == Firewall.UpdateFirewallRule(GetClient(loaded).value, args.id, body, send)
  {
    var client := GetClient(loaded);
    if client.Err? {
      return None, Err(client.error);
    }
    var fields := BuildUpdateFields(args);
    UpdateFieldsMirrorOptions(args);
    assert UpdateEntries(args)[0].0 == "name" && UpdateEntries(args)[10].0 == "enabled"
        && UpdateEntries(args)[11].0 == "logging";
    var request := Firewall.UpdateRuleRequest(client.value, args.id, fields);
    Firewall.RuleUrlExtendsCollection(client.value, args.id);
    sent, r := Some(request), Firewall.UpdateFirewallRule(client.value, args.id, fields, send);
  }
}
