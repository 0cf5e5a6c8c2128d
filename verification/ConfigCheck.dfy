/**
  The public configuration: what Validate accepts, and why a gateway can always be built from what it accepts.
  Network addresses, URLs and file paths stay abstract.
*/
module ConfigCheck {
  import opened Names
  import opened Text
  import opened Wrappers
  import Decimal

  datatype PriceConfig = PriceConfig(revision: string, currency: string, inputRate: string, outputRate: string)

  datatype Rates = Rates(inputRate: string, outputRate: string)

  datatype ProviderConfig = ProviderConfig(
    id: Name, kind: string, baseUrl: string, modelsUrl: string, responsesUrl: string, wireApi: string,
    apiKeyHeader: string, apiKeyPrefix: string, executable: string, maxConcurrency: int, defaultReasoning: string,
    serviceTier: string, warmupEnabled: bool, warmupModel: string, warmupTimeout: int, defaultPrice: PriceConfig)

  datatype DeploymentConfig = DeploymentConfig(
    id: Name, provider: Name, upstreamModel: string, efforts: seq<string>, functionCalling: string,
    price: PriceConfig, actualPrice: Option<PriceConfig>, actualPoints: Option<Rates>)

  datatype ClientConfig = ClientConfig(id: Name, token: string, dailyLimit: string, allowed: seq<Name>)

  datatype Config = Config(version: int, listen: string, adminListen: string,
                           providers: seq<ProviderConfig>, deployments: seq<DeploymentConfig>,
                           clients: seq<ClientConfig>)

  /** The host of an address, and what the libraries say about hosts, URLs, paths and letters. */
  datatype Platform = Platform(host: string -> Option<string>, loopback: string -> bool, httpUrl: string -> bool,
                               absolute: string -> bool, upper: char -> char)

  // ------------------------------------------------ the rules, one entity at a time

  predicate PriceOk(p: PriceConfig) {
    && p.revision != "" && p.currency != "" && p.inputRate != "" && p.outputRate != ""
    && Decimal.ReadsBack(p.inputRate) && Decimal.ReadsBack(p.outputRate)
  }

  predicate RatesOk(r: Rates) {
    Decimal.ReadsBack(r.inputRate) && Decimal.ReadsBack(r.outputRate)
  }

  predicate EffortKnown(effort: string) {
    effort in ["none", "minimal", "low", "medium", "high", "xhigh", "max", "ultra"]
  }

  predicate NoneOf(s: string, banned: string) {
    forall i :: 0 <= i < |s| ==> s[i] !in banned
  }

  predicate ApiProviderOk(os: Platform, p: ProviderConfig) {
    && (p.wireApi == "" || p.wireApi == "responses")
    && (forall url :: url in [p.baseUrl, p.modelsUrl, p.responsesUrl] ==> url == "" || os.httpUrl(Trim(url)))
    && NoneOf(p.apiKeyHeader, "\r\n:") && NoneOf(p.apiKeyPrefix, "\r\n")
  }

  predicate ExecProviderOk(os: Platform, p: ProviderConfig) {
    && os.absolute(p.executable)
    && (p.maxConcurrency == 0 || 1 <= p.maxConcurrency <= 16)
    && (p.defaultReasoning == "" || EffortKnown(p.defaultReasoning))
    && (p.kind == "codex_exec" ==> p.serviceTier == "" || p.serviceTier == "priority")
    && (p.kind != "codex_exec" ==> p.serviceTier == "")
    && (p.kind != "workbuddy_exec" ==> !p.warmupEnabled && p.warmupModel == "" && p.warmupTimeout == 0)
    && (p.warmupEnabled ==> Trim(p.warmupModel) != "")
    && (p.warmupTimeout == 0 || 5 <= p.warmupTimeout <= 300)
  }

  predicate ProviderOk(os: Platform, p: ProviderConfig) {
    && p.id.text != "" && PriceOk(p.defaultPrice)
    && match p.kind
       case "openai_responses" => p.baseUrl != "" && ApiProviderOk(os, p)
       case "codex_exec" => ExecProviderOk(os, p)
       case "workbuddy_exec" => ExecProviderOk(os, p)
       case _ => false
  }

  /** A deployment together with the provider it names. */
  predicate Compatible(d: DeploymentConfig, p: ProviderConfig) {
    && p.id == d.provider
    && (d.functionCalling == "native" ==> p.kind != "workbuddy_exec")
    && (p.defaultReasoning == "" || |d.efforts| == 0 || p.defaultReasoning in d.efforts)
  }

  predicate DeploymentOk(d: DeploymentConfig) {
    && d.id.text != "" && d.upstreamModel != ""
    && d.functionCalling in ["", "unsupported", "native", "emulated"]
    && PriceOk(d.price)
    && (d.actualPrice.Some? ==> PriceOk(d.actualPrice.value))
    && (d.actualPoints.Some? ==> RatesOk(d.actualPoints.value))
  }

  function Currency(os: Platform, d: DeploymentConfig): string {
    var t := Trim(d.price.currency);
    seq(|t|, i requires 0 <= i < |t| => os.upper(t[i]))
  }

  predicate LimitOk(raw: string) {
    raw == "" || (var r := Decimal.ParseDecimal(raw); r.Ok? && r.value != 0)
  }

  predicate Allowable(os: Platform, c: ClientConfig, d: DeploymentConfig) {
    c.dailyLimit == "" || Currency(os, d) == "USD"
  }

  // ------------------------------------------------ the whole configuration

  ghost predicate DistinctProviders(providers: seq<ProviderConfig>) {
    forall i, j :: 0 <= i < j < |providers| ==> providers[i].id != providers[j].id
  }

  ghost predicate DistinctDeployments(deployments: seq<DeploymentConfig>) {
    forall i, j :: 0 <= i < j < |deployments| ==> deployments[i].id != deployments[j].id
  }

  ghost predicate DistinctClients(clients: seq<ClientConfig>) {
    forall i, j :: 0 <= i < j < |clients| ==> clients[i].id != clients[j].id
  }

  ghost predicate ProvidersOk(os: Platform, providers: seq<ProviderConfig>) {
    DistinctProviders(providers) && forall i :: 0 <= i < |providers| ==> ProviderOk(os, providers[i])
  }

  ghost predicate HasProvider(providers: seq<ProviderConfig>, d: DeploymentConfig) {
    exists k :: 0 <= k < |providers| && Compatible(d, providers[k])
  }

  ghost predicate DeploymentsOk(providers: seq<ProviderConfig>, deployments: seq<DeploymentConfig>) {
    && DistinctDeployments(deployments)
    && forall i :: 0 <= i < |deployments| ==> DeploymentOk(deployments[i]) && HasProvider(providers, deployments[i])
  }

  ghost predicate MayUse(os: Platform, deployments: seq<DeploymentConfig>, c: ClientConfig, id: Name) {
    exists k :: 0 <= k < |deployments| && deployments[k].id == id && Allowable(os, c, deployments[k])
  }

  ghost predicate ClientOk(os: Platform, deployments: seq<DeploymentConfig>, c: ClientConfig) {
    && c.id.text != "" && c.token != "" && LimitOk(c.dailyLimit)
    && forall i :: 0 <= i < |c.allowed| ==> MayUse(os, deployments, c, c.allowed[i])
  }

  ghost predicate ClientsOk(os: Platform, deployments: seq<DeploymentConfig>, clients: seq<ClientConfig>) {
    DistinctClients(clients) && forall i :: 0 <= i < |clients| ==> ClientOk(os, deployments, clients[i])
  }

  /** Ids are unique, every reference resolves, every entity follows its rules and the admin page stays local. */
  ghost predicate Admissible(os: Platform, c: Config) {
    && c.version == 1 && os.host(c.listen).Some?
    && os.host(c.adminListen).Some? && os.loopback(os.host(c.adminListen).value)
    && ProvidersOk(os, c.providers) && DeploymentsOk(c.providers, c.deployments)
    && ClientsOk(os, c.deployments, c.clients)
  }

  // ------------------------------------------------ the checks

  /** The providers seen so far by id. */
  ghost predicate Indexes(byId: map<Name, ProviderConfig>, providers: seq<ProviderConfig>) {
    && (forall i :: 0 <= i < |providers| ==> providers[i].id in byId && byId[providers[i].id] == providers[i])
    && (forall id :: id in byId ==> byId[id].id == id && byId[id] in providers)
  }

  lemma IndexesMore(byId: map<Name, ProviderConfig>, providers: seq<ProviderConfig>, p: ProviderConfig)
    requires Indexes(byId, providers)
    ensures p.id in byId <==> exists i :: 0 <= i < |providers| && providers[i].id == p.id
    ensures p.id !in byId ==> Indexes(byId[p.id := p], providers + [p])
  {
    if p.id in byId {
      var i :| 0 <= i < |providers| && providers[i] == byId[p.id];
    }
  }

  method CheckProviders(os: Platform, providers: seq<ProviderConfig>)
    returns (ok: bool, byId: map<Name, ProviderConfig>)
    ensures ok <==> ProvidersOk(os, providers)
    ensures ok ==> Indexes(byId, providers)
  {
    hide ProviderOk, Indexes;
    byId := map[];
    NothingIndexed();
    for k := 0 to |providers|
      invariant ProvidersOk(os, providers[..k]) && Indexes(byId, providers[..k])
    {
      var p := providers[k];
      assert providers[..k + 1] == providers[..k] + [p];
      IndexesMore(byId, providers[..k], p);
      if p.id in byId {
        var i :| 0 <= i < k && providers[..k][i].id == p.id;
        assert providers[i].id == providers[k].id;
        return false, byId;
      }
      var good := CheckProvider(os, p);
      if !good {
        return false, byId;
      }
      byId := byId[p.id := p];
    }
    assert providers[..|providers|] == providers;
    ok := true;
  }

  lemma NothingIndexed()
    ensures Indexes(map[], [])
  {
  }

  method CheckProvider(os: Platform, p: ProviderConfig) returns (ok: bool)
    ensures ok <==> ProviderOk(os, p)
  {
    hide ApiProviderOk, PriceOk, Trim;
    if p.id.text == "" {
      return false;
    }
    if p.kind == "openai_responses" {
      if p.baseUrl == "" || !ApiProviderOk(os, p) {
        return false;
      }
    } else if p.kind == "codex_exec" || p.kind == "workbuddy_exec" {
      if !os.absolute(p.executable) {
        return false;
      }
      if p.maxConcurrency != 0 && (p.maxConcurrency < 1 || p.maxConcurrency > 16) {
        return false;
      }
      if p.defaultReasoning != "" && !EffortKnown(p.defaultReasoning) {
        return false;
      }
      if p.kind != "codex_exec" && p.serviceTier != "" {
        return false;
      }
      if p.kind == "codex_exec" && p.serviceTier != "" && p.serviceTier != "priority" {
        return false;
      }
      if p.kind != "workbuddy_exec" && (p.warmupEnabled || p.warmupModel != "" || p.warmupTimeout != 0) {
        return false;
      }
      if p.warmupEnabled && Trim(p.warmupModel) == "" {
        return false;
      }
      if p.warmupTimeout != 0 && (p.warmupTimeout < 5 || p.warmupTimeout > 300) {
        return false;
      }
    } else {
      return false;
    }
    ok := PriceOk(p.defaultPrice);
  }

  /** The currencies of the deployments seen so far. */
  ghost predicate Priced(os: Platform, currencies: map<Name, string>, deployments: seq<DeploymentConfig>) {
    && (forall i :: 0 <= i < |deployments| ==>
          deployments[i].id in currencies && currencies[deployments[i].id] == Currency(os, deployments[i]))
    && (forall id :: id in currencies ==> exists i :: 0 <= i < |deployments| && deployments[i].id == id)
  }

  lemma PricedMore(os: Platform, currencies: map<Name, string>, deployments: seq<DeploymentConfig>, d: DeploymentConfig)
    requires Priced(os, currencies, deployments) && d.id !in currencies
    ensures Priced(os, currencies[d.id := Currency(os, d)], deployments + [d])
  {
    var all := deployments + [d];
    var more := currencies[d.id := Currency(os, d)];
    hide Currency;
    forall id | id in more
      ensures exists i :: 0 <= i < |all| && all[i].id == id
    {
      if id == d.id {
        assert all[|deployments|].id == id;
      } else {
        var i :| 0 <= i < |deployments| && deployments[i].id == id;
        assert all[i].id == id;
      }
    }
  }

  method CheckDeployments(os: Platform, providers: seq<ProviderConfig>, byId: map<Name, ProviderConfig>,
                          deployments: seq<DeploymentConfig>)
    returns (ok: bool, currencies: map<Name, string>)
    requires ProvidersOk(os, providers) && Indexes(byId, providers)
    ensures ok <==> DeploymentsOk(providers, deployments)
    ensures ok ==> Priced(os, currencies, deployments)
  {
    hide ProvidersOk, Indexes, DeploymentOk, HasProvider, Currency;
    currencies := map[];
    for k := 0 to |deployments|
      invariant DeploymentsOk(providers, deployments[..k]) && Priced(os, currencies, deployments[..k])
    {
      var d := deployments[k];
      assert deployments[..k + 1] == deployments[..k] + [d];
      if d.id in currencies {
        var i :| 0 <= i < k && deployments[..k][i].id == d.id;
        assert deployments[i].id == deployments[k].id;
        return false, currencies;
      }
      var good := CheckDeployment(os, providers, byId, d);
      if !good {
        return false, currencies;
      }
      PricedMore(os, currencies, deployments[..k], d);
      currencies := currencies[d.id := Currency(os, d)];
    }
    assert deployments[..|deployments|] == deployments;
    ok := true;
  }

  lemma ProviderFound(os: Platform, providers: seq<ProviderConfig>, byId: map<Name, ProviderConfig>,
                      d: DeploymentConfig)
    requires ProvidersOk(os, providers) && Indexes(byId, providers)
    ensures HasProvider(providers, d) <==> d.provider in byId && Compatible(d, byId[d.provider])
  {
    hide ProviderOk;
    if d.provider in byId {
      var k :| 0 <= k < |providers| && providers[k] == byId[d.provider];
      assert Compatible(d, providers[k]) <==> Compatible(d, byId[d.provider]);
    }
  }

  method CheckDeployment(os: Platform, providers: seq<ProviderConfig>, byId: map<Name, ProviderConfig>,
                         d: DeploymentConfig)
    returns (ok: bool)
    requires ProvidersOk(os, providers) && Indexes(byId, providers)
    ensures ok <==> DeploymentOk(d) && HasProvider(providers, d)
  {
    hide ProvidersOk, Indexes, HasProvider, PriceOk, Decimal.ReadsBack;
    ProviderFound(os, providers, byId, d);
    if d.id.text == "" || d.upstreamModel == "" {
      return false;
    }
    if d.provider !in byId {
      return false;
    }
    var p := byId[d.provider];
    if d.functionCalling !in ["", "unsupported", "native", "emulated"] {
      return false;
    }
    if d.functionCalling == "native" && p.kind == "workbuddy_exec" {
      return false;
    }
    if p.defaultReasoning != "" && |d.efforts| > 0 && p.defaultReasoning !in d.efforts {
      return false;
    }
    assert Compatible(d, p) by {
      IndexedId(providers, byId, d.provider);
    }
    if !PriceOk(d.price) {
      return false;
    }
    if d.actualPrice.Some? && !PriceOk(d.actualPrice.value) {
      return false;
    }
    if d.actualPoints.Some? && !RatesOk(d.actualPoints.value) {
      return false;
    }
    ok := true;
  }

  lemma IndexedId(providers: seq<ProviderConfig>, byId: map<Name, ProviderConfig>, id: Name)
    requires Indexes(byId, providers) && id in byId
    ensures byId[id].id == id
  {
  }

  lemma MayUseMeans(os: Platform, deployments: seq<DeploymentConfig>, currencies: map<Name, string>, c: ClientConfig,
                    id: Name)
    requires DistinctDeployments(deployments) && Priced(os, currencies, deployments)
    ensures MayUse(os, deployments, c, id) <==> id in currencies && (c.dailyLimit == "" || currencies[id] == "USD")
  {
    hide Currency;
    if id in currencies {
      var k :| 0 <= k < |deployments| && deployments[k].id == id;
      assert currencies[id] == Currency(os, deployments[k]);
    }
  }

  method CheckClient(os: Platform, deployments: seq<DeploymentConfig>, currencies: map<Name, string>, c: ClientConfig)
    returns (ok: bool)
    requires DistinctDeployments(deployments) && Priced(os, currencies, deployments)
    ensures ok <==> ClientOk(os, deployments, c)
  {
    hide MayUse, Priced, DistinctDeployments, Decimal.ParseDecimal;
    if c.id.text == "" || c.token == "" {
      return false;
    }
    if c.dailyLimit != "" {
      var limit := Decimal.ParseDecimal(c.dailyLimit);
      if limit.Err? || limit.value == 0 {
        return false;
      }
    }
    for i := 0 to |c.allowed|
      invariant forall k :: 0 <= k < i ==> MayUse(os, deployments, c, c.allowed[k])
    {
      MayUseMeans(os, deployments, currencies, c, c.allowed[i]);
      if c.allowed[i] !in currencies {
        return false;
      }
      if c.dailyLimit != "" && currencies[c.allowed[i]] != "USD" {
        return false;
      }
    }
    ok := true;
  }

  method CheckClients(os: Platform, deployments: seq<DeploymentConfig>, currencies: map<Name, string>,
                      clients: seq<ClientConfig>)
    returns (ok: bool)
    requires DistinctDeployments(deployments) && Priced(os, currencies, deployments)
    ensures ok <==> ClientsOk(os, deployments, clients)
  {
    hide ClientOk, Priced, DistinctDeployments;
    var ids: set<Name> := {};
    for k := 0 to |clients|
      invariant DistinctClients(clients[..k])
      invariant forall i :: 0 <= i < k ==> ClientOk(os, deployments, clients[i])
      invariant forall id :: id in ids <==> exists i :: 0 <= i < k && clients[i].id == id
    {
      if clients[k].id in ids {
        return false;
      }
      var good := CheckClient(os, deployments, currencies, clients[k]);
      if !good {
        return false;
      }
      ids := ids + {clients[k].id};
    }
    assert clients[..|clients|] == clients;
    ok := true;
  }

  /** A configuration passes exactly when it is admissible. */
  method Validate(os: Platform, c: Config) returns (ok: bool)
    ensures ok <==> Admissible(os, c)
  {
    hide ProvidersOk, ClientsOk, Indexes, Priced;
    if c.version != 1 {
      return false;
    }
    if os.host(c.listen).None? {
      return false;
    }
    var admin := os.host(c.adminListen);
    if admin.None? || !os.loopback(admin.value) {
      return false;
    }
    var providersOk, byId := CheckProviders(os, c.providers);
    if !providersOk {
      return false;
    }
    var deploymentsOk, currencies := CheckDeployments(os, c.providers, byId, c.deployments);
    if !deploymentsOk {
      return false;
    }
    ok := CheckClients(os, c.deployments, currencies, c.clients);
  }

  // ------------------------------------------------ building the gateway

  datatype Price = Price(inputRate: int, outputRate: int)

  /** What the gateway keeps of a deployment. */
  datatype Deployment = Deployment(provider: Name, upstreamModel: string, price: Price, actualPrice: Option<Price>,
                                   actualPoints: Option<Price>)

  datatype Service = Service(providers: set<Name>, deployments: map<Name, Deployment>)

  predicate RatesParse(inputRate: string, outputRate: string) {
    Decimal.Readable(inputRate) && Decimal.Readable(outputRate)
  }

  function PriceOf(inputRate: string, outputRate: string): Price {
    Price(Decimal.Worth(inputRate), Decimal.Worth(outputRate))
  }

  /** What a deployment needs to be served. */
  predicate Servable(adapters: set<Name>, d: DeploymentConfig) {
    && RatesParse(d.price.inputRate, d.price.outputRate)
    && d.provider in adapters
    && (d.actualPrice.Some? ==> RatesParse(d.actualPrice.value.inputRate, d.actualPrice.value.outputRate))
    && (d.actualPoints.Some? ==> RatesParse(d.actualPoints.value.inputRate, d.actualPoints.value.outputRate))
  }

  function DeploymentOf(d: DeploymentConfig): Deployment {
    Deployment(d.provider, d.upstreamModel, PriceOf(d.price.inputRate, d.price.outputRate),
               if d.actualPrice.None? then None
               else Some(PriceOf(d.actualPrice.value.inputRate, d.actualPrice.value.outputRate)),
               if d.actualPoints.None? then None
               else Some(PriceOf(d.actualPoints.value.inputRate, d.actualPoints.value.outputRate)))
  }

  ghost predicate DistinctIds(ids: seq<Name>) {
    forall i, j :: 0 <= i < j < |ids| ==> ids[i] != ids[j]
  }

  ghost function IdSet(ids: seq<Name>): set<Name> {
    set id | id in ids
  }

  ghost predicate Startable(deployments: seq<DeploymentConfig>, adapters: seq<Name>) {
    DistinctIds(adapters) && forall i :: 0 <= i < |deployments| ==> Servable(IdSet(adapters), deployments[i])
  }

  /** The table after some deployments: a later one replaces an earlier one of the same id. */
  ghost function TableOf(deployments: seq<DeploymentConfig>): map<Name, Deployment> {
    if deployments == [] then map[]
    else
      var last := deployments[|deployments| - 1];
      TableOf(deployments[..|deployments| - 1])[last.id := DeploymentOf(last)]
  }

  /** The gateway starts exactly when adapter ids are unique, every rate parses and every deployment has its adapter. */
  method NewService(deployments: seq<DeploymentConfig>, adapters: seq<Name>) returns (s: Option<Service>)
    ensures s.Some? <==> Startable(deployments, adapters)
    ensures s.Some? ==> s.value == Service(IdSet(adapters), TableOf(deployments))
  {
    hide Servable, DeploymentOf;
    var providers: set<Name> := {};
    for i := 0 to |adapters|
      invariant DistinctIds(adapters[..i]) && providers == IdSet(adapters[..i])
    {
      assert adapters[..i + 1] == adapters[..i] + [adapters[i]];
      if adapters[i] in providers {
        var k :| 0 <= k < i && adapters[..i][k] == adapters[i];
        assert adapters[k] == adapters[i];
        return None;
      }
      providers := providers + {adapters[i]};
    }
    assert adapters[..|adapters|] == adapters;
    var table: map<Name, Deployment> := map[];
    for i := 0 to |deployments|
      invariant forall k :: 0 <= k < i ==> Servable(providers, deployments[k])
      invariant table == TableOf(deployments[..i])
    {
      var d := deployments[i];
      assert deployments[..i + 1][..i] == deployments[..i];
      var deployment := BuildDeployment(providers, d);
      if deployment.None? {
        return None;
      }
      table := table[d.id := deployment.value];
    }
    assert deployments[..|deployments|] == deployments;
    s := Some(Service(providers, table));
  }

  method BuildDeployment(providers: set<Name>, d: DeploymentConfig) returns (r: Option<Deployment>)
    ensures r == if Servable(providers, d) then Some(DeploymentOf(d)) else None
  {
    hide Decimal.ParseDecimal;
    var inputRate, outputRate := Decimal.ParseDecimal(d.price.inputRate), Decimal.ParseDecimal(d.price.outputRate);
    if inputRate.Err? || outputRate.Err? {
      return None;
    }
    if d.provider !in providers {
      return None;
    }
    var actualPrice, actualPoints: Option<Price> := None, None;
    if d.actualPrice.Some? {
      var p := d.actualPrice.value;
      var actualInput, actualOutput := Decimal.ParseDecimal(p.inputRate), Decimal.ParseDecimal(p.outputRate);
      if actualInput.Err? || actualOutput.Err? {
        return None;
      }
      actualPrice := Some(Price(actualInput.value, actualOutput.value));
    }
    if d.actualPoints.Some? {
      var p := d.actualPoints.value;
      var pointsInput, pointsOutput := Decimal.ParseDecimal(p.inputRate), Decimal.ParseDecimal(p.outputRate);
      if pointsInput.Err? || pointsOutput.Err? {
        return None;
      }
      actualPoints := Some(Price(pointsInput.value, pointsOutput.value));
    }
    var price := Price(inputRate.value, outputRate.value);
    r := Some(Deployment(d.provider, d.upstreamModel, price, actualPrice, actualPoints));
  }

  ghost function ProviderIds(providers: seq<ProviderConfig>): seq<Name> {
    seq(|providers|, i requires 0 <= i < |providers| => providers[i].id)
  }

  lemma RatesOfPrice(p: PriceConfig)
    requires PriceOk(p)
    ensures RatesParse(p.inputRate, p.outputRate)
    ensures PriceOf(p.inputRate, p.outputRate).inputRate >= 0 && PriceOf(p.inputRate, p.outputRate).outputRate >= 0
  {
    hide Decimal.ParseDecimal;
  }

  lemma ServableWhenOk(providers: seq<ProviderConfig>, d: DeploymentConfig, adapters: set<Name>)
    requires DeploymentOk(d) && HasProvider(providers, d)
    requires forall k :: 0 <= k < |providers| ==> providers[k].id in adapters
    ensures Servable(adapters, d)
  {
    hide Decimal.ParseDecimal, PriceOk, Decimal.ReadsBack, RatesParse;
    RatesOfPrice(d.price);
    if d.actualPrice.Some? {
      RatesOfPrice(d.actualPrice.value);
    }
    if d.actualPoints.Some? {
      RatesOfPoints(d.actualPoints.value);
    }
  }

  lemma RatesOfPoints(r: Rates)
    requires RatesOk(r)
    ensures RatesParse(r.inputRate, r.outputRate)
    ensures PriceOf(r.inputRate, r.outputRate).inputRate >= 0 && PriceOf(r.inputRate, r.outputRate).outputRate >= 0
  {
    hide Decimal.ParseDecimal;
  }

  /** A validated configuration with one adapter for each provider always starts. */
  lemma ValidationSuffices(os: Platform, c: Config)
    requires Admissible(os, c)
    ensures Startable(c.deployments, ProviderIds(c.providers))
  {
    hide DeploymentOk, HasProvider, ProviderOk, Servable, ClientsOk;
    var ids := ProviderIds(c.providers);
    assert forall k :: 0 <= k < |c.providers| ==> ids[k] == c.providers[k].id;
    forall i | 0 <= i < |c.deployments|
      ensures Servable(IdSet(ids), c.deployments[i])
    {
      ServableWhenOk(c.providers, c.deployments[i], IdSet(ids));
    }
  }

  /** The gateway then has every deployment under its own id, with rates that are not negative. */
  lemma {:induction false} TableOfDistinct(deployments: seq<DeploymentConfig>, i: nat)
    requires DistinctDeployments(deployments) && i < |deployments|
    ensures deployments[i].id in TableOf(deployments)
    ensures TableOf(deployments)[deployments[i].id] == DeploymentOf(deployments[i])
  {
    hide DeploymentOf;
    var last := |deployments| - 1;
    if i < last {
      assert deployments[i].id != deployments[last].id;
      TableOfDistinct(deployments[..last], i);
    }
  }

  ghost predicate NotNegative(p: Price) {
    p.inputRate >= 0 && p.outputRate >= 0
  }

  ghost predicate PricesNotNegative(d: Deployment) {
    && NotNegative(d.price)
    && (d.actualPrice.Some? ==> NotNegative(d.actualPrice.value))
    && (d.actualPoints.Some? ==> NotNegative(d.actualPoints.value))
  }

  lemma DeploymentPrices(d: DeploymentConfig)
    requires DeploymentOk(d)
    ensures PricesNotNegative(DeploymentOf(d))
  {
    hide PriceOk, Decimal.ReadsBack, PriceOf, RatesParse;
    RatesOfPrice(d.price);
    if d.actualPrice.Some? {
      RatesOfPrice(d.actualPrice.value);
    }
    if d.actualPoints.Some? {
      RatesOfPoints(d.actualPoints.value);
    }
  }

  lemma ServedPrices(os: Platform, c: Config, i: nat)
    requires Admissible(os, c) && i < |c.deployments|
    ensures c.deployments[i].id in TableOf(c.deployments)
    ensures PricesNotNegative(TableOf(c.deployments)[c.deployments[i].id])
  {
    hide HasProvider, ClientsOk, ProvidersOk, TableOf, DeploymentOk;
    hide DeploymentOf, PricesNotNegative, DistinctDeployments;
    assert DeploymentOk(c.deployments[i]);
    TableOfDistinct(c.deployments, i);
    DeploymentPrices(c.deployments[i]);
  }

  /**
    A daily limit must not be zero, and its error text asks for a positive one. The check lets a negative one through
    exactly when the text has a second sign and what stands behind it wraps into the negative half.
  */
  lemma LimitSign(raw: string)
    requires raw != "" && LimitOk(raw)
    ensures !Decimal.SecondSign(raw) ==> Decimal.ParseDecimal(raw).value > 0
    ensures Decimal.SecondSign(raw) ==>
              var w, f := Decimal.SignedWhole(raw), Decimal.SignedFraction(raw);
              && Decimal.AllDigits(w) && Decimal.AllDigits(f) && |f| <= Decimal.FRACTION_DIGITS
              && (Decimal.ParseDecimal(raw).value > 0 <==> !Decimal.Owes(Decimal.Debt(w, f)))
  {
    hide Decimal.ParseDecimal, Trim, Decimal.DigitsValue, Decimal.Debt, Decimal.Owes;
    Decimal.NegativeExactly(raw);
  }

  /** The most negative limit in whole units passes too. */
  lemma LargeNegativeLimitPasses()
    ensures LimitOk(Decimal.LARGE_NEGATIVE)
  {
    hide Decimal.ParseDecimal;
    Decimal.LargeNegativeParses();
  }

  // ------------------------------------------------ the rules on the fields

  /** A rate is a decimal that does not denote a negative amount. */
  predicate IsRate(text: string) {
    var r := Decimal.ParseDecimal(text);
    r.Ok? && 0 <= r.value
  }

  lemma RatesExactly(p: PriceConfig, r: Rates)
    ensures PriceOk(p) <==>
              && |p.revision| > 0 && |p.currency| > 0 && |p.inputRate| > 0 && |p.outputRate| > 0
              && IsRate(p.inputRate) && IsRate(p.outputRate)
    ensures RatesOk(r) <==> IsRate(r.inputRate) && IsRate(r.outputRate)
  {
    hide Decimal.ParseDecimal;
  }

  lemma HttpProviderExactly(os: Platform, p: ProviderConfig)
    requires p.kind == "openai_responses"
    ensures ProviderOk(os, p) <==>
              && |p.id.text| > 0 && |p.baseUrl| > 0 && PriceOk(p.defaultPrice) && p.wireApi in {"", "responses"}
              && os.httpUrl(Trim(p.baseUrl))
              && (p.modelsUrl == "" || os.httpUrl(Trim(p.modelsUrl)))
              && (p.responsesUrl == "" || os.httpUrl(Trim(p.responsesUrl)))
              && '\r' !in p.apiKeyHeader && '\n' !in p.apiKeyHeader && ':' !in p.apiKeyHeader
              && '\r' !in p.apiKeyPrefix && '\n' !in p.apiKeyPrefix
  {
    hide PriceOk, Trim;
    assert forall url :: url in [p.baseUrl, p.modelsUrl, p.responsesUrl] <==>
             url == p.baseUrl || url == p.modelsUrl || url == p.responsesUrl;
    NoneOfMeans(p.apiKeyHeader, "\r\n:");
    NoneOfMeans(p.apiKeyPrefix, "\r\n");
    assert "\r\n:" == ['\r', '\n', ':'] && "\r\n" == ['\r', '\n'];
    hide NoneOf;
  }

  lemma NoneOfMeans(s: string, banned: string)
    ensures NoneOf(s, banned) <==> forall i :: 0 <= i < |banned| ==> banned[i] !in s
  {
  }

  lemma CodexProviderExactly(os: Platform, p: ProviderConfig)
    requires p.kind == "codex_exec"
    ensures ProviderOk(os, p) <==>
              && |p.id.text| > 0 && PriceOk(p.defaultPrice) && os.absolute(p.executable)
              && 0 <= p.maxConcurrency <= 16 && p.serviceTier in {"", "priority"}
              && p.defaultReasoning in {"", "none", "minimal", "low", "medium", "high", "xhigh", "max", "ultra"}
              && !p.warmupEnabled && p.warmupModel == "" && p.warmupTimeout == 0
  {
    hide PriceOk, Trim;
  }

  lemma WorkbuddyProviderExactly(os: Platform, p: ProviderConfig)
    requires p.kind == "workbuddy_exec"
    ensures ProviderOk(os, p) <==>
              && |p.id.text| > 0 && PriceOk(p.defaultPrice) && os.absolute(p.executable)
              && 0 <= p.maxConcurrency <= 16 && p.serviceTier == ""
              && p.defaultReasoning in {"", "none", "minimal", "low", "medium", "high", "xhigh", "max", "ultra"}
              && (p.warmupEnabled ==> |Trim(p.warmupModel)| > 0)
              && (p.warmupTimeout != 0 ==> 5 <= p.warmupTimeout <= 300)
  {
    hide PriceOk, Trim;
  }

  lemma OtherProviderRefused(os: Platform, p: ProviderConfig)
    requires p.kind !in {"openai_responses", "codex_exec", "workbuddy_exec"}
    ensures !ProviderOk(os, p)
  {
  }

  lemma DeploymentExactly(d: DeploymentConfig, p: ProviderConfig)
    ensures DeploymentOk(d) <==>
              && |d.id.text| > 0 && |d.upstreamModel| > 0
              && d.functionCalling in {"", "unsupported", "native", "emulated"} && PriceOk(d.price)
              && (d.actualPrice.Some? ==> PriceOk(d.actualPrice.value))
              && (d.actualPoints.Some? ==> RatesOk(d.actualPoints.value))
    ensures Compatible(d, p) <==>
              && d.provider == p.id && !(d.functionCalling == "native" && p.kind == "workbuddy_exec")
              && (p.defaultReasoning != "" && d.efforts != [] ==> p.defaultReasoning in d.efforts)
  {
    hide PriceOk, RatesOk;
  }

  /** A client with a dollar limit may use deployments priced in dollars only. */
  lemma MayUseExactly(os: Platform, deployments: seq<DeploymentConfig>, c: ClientConfig, id: Name)
    ensures MayUse(os, deployments, c, id)
       <==> exists d :: d in deployments && d.id == id && (c.dailyLimit != "" ==> Currency(os, d) == "USD")
  {
    hide Currency;
    if d :| d in deployments && d.id == id && (c.dailyLimit != "" ==> Currency(os, d) == "USD") {
      var k :| 0 <= k < |deployments| && deployments[k] == d;
      assert Allowable(os, c, deployments[k]);
    }
    if MayUse(os, deployments, c, id) {
      var k :| 0 <= k < |deployments| && deployments[k].id == id && Allowable(os, c, deployments[k]);
      assert deployments[k] in deployments;
    }
  }

  lemma ClientExactly(os: Platform, deployments: seq<DeploymentConfig>, c: ClientConfig)
    ensures ClientOk(os, deployments, c) <==>
              && |c.id.text| > 0 && |c.token| > 0
              && (c.dailyLimit != "" ==>
                    Decimal.ParseDecimal(c.dailyLimit).Ok? && Decimal.ParseDecimal(c.dailyLimit) != Ok(0))
              && forall id :: id in c.allowed ==> MayUse(os, deployments, c, id)
  {
    hide Decimal.ParseDecimal, MayUse;
  }

  /** A configuration passes exactly when its ends are local, ids are unique, references resolve and entities pass. */
  lemma AdmissibleExactly(os: Platform, c: Config)
    ensures Admissible(os, c) <==>
              && c.version == 1 && os.host(c.listen).Some? && os.host(c.adminListen).Some?
              && os.loopback(os.host(c.adminListen).value)
              && (forall i, j :: 0 <= i < j < |c.providers| ==> c.providers[i].id != c.providers[j].id)
              && (forall i, j :: 0 <= i < j < |c.clients| ==> c.clients[i].id != c.clients[j].id)
              && (forall p :: p in c.providers ==> ProviderOk(os, p)) && DeploymentsOk(c.providers, c.deployments)
              && (forall client :: client in c.clients ==> ClientOk(os, c.deployments, client))
  {
    hide ProviderOk, DeploymentOk, ClientOk, Compatible;
    assert (forall i :: 0 <= i < |c.providers| ==> ProviderOk(os, c.providers[i]))
      <==> (forall p :: p in c.providers ==> ProviderOk(os, p));
    assert (forall i :: 0 <= i < |c.clients| ==> ClientOk(os, c.deployments, c.clients[i]))
      <==> (forall client :: client in c.clients ==> ClientOk(os, c.deployments, client));
    hide DeploymentsOk;
  }

  lemma DeploymentsExactly(providers: seq<ProviderConfig>, deployments: seq<DeploymentConfig>)
    ensures DeploymentsOk(providers, deployments) <==>
              && (forall i, j :: 0 <= i < j < |deployments| ==> deployments[i].id != deployments[j].id)
              && (forall d :: d in deployments ==>
                    DeploymentOk(d) && exists p :: p in providers && Compatible(d, p))
  {
    hide DeploymentOk, Compatible;
    forall d | d in deployments
      ensures HasProvider(providers, d) <==> exists p :: p in providers && Compatible(d, p)
    {
      if p :| p in providers && Compatible(d, p) {
        var k :| 0 <= k < |providers| && providers[k] == p;
      }
      if HasProvider(providers, d) {
        var k :| 0 <= k < |providers| && Compatible(d, providers[k]);
        assert providers[k] in providers;
      }
    }
    hide HasProvider;
    assert (forall i :: 0 <= i < |deployments| ==>
              DeploymentOk(deployments[i]) && HasProvider(providers, deployments[i]))
      <==> (forall d :: d in deployments ==> DeploymentOk(d) && HasProvider(providers, d));
  }

  /** A deployment can be served exactly when its provider has an adapter and all its rates are decimals. */
  lemma ServableExactly(adapters: set<Name>, d: DeploymentConfig)
    ensures Servable(adapters, d) <==>
              && d.provider in adapters
              && Decimal.ParseDecimal(d.price.inputRate).Ok? && Decimal.ParseDecimal(d.price.outputRate).Ok?
              && (d.actualPrice.Some? ==>
                    && Decimal.ParseDecimal(d.actualPrice.value.inputRate).Ok?
                    && Decimal.ParseDecimal(d.actualPrice.value.outputRate).Ok?)
              && (d.actualPoints.Some? ==>
                    && Decimal.ParseDecimal(d.actualPoints.value.inputRate).Ok?
                    && Decimal.ParseDecimal(d.actualPoints.value.outputRate).Ok?)
  {
    hide Decimal.ParseDecimal;
  }

  /** The currency of a deployment is compared in upper case and without white space around it. */
  lemma CurrencyMeans(os: Platform, d: DeploymentConfig)
    ensures |Currency(os, d)| == |Trim(d.price.currency)|
    ensures forall i :: 0 <= i < |Currency(os, d)| ==> Currency(os, d)[i] == os.upper(Trim(d.price.currency)[i])
  {
    hide Trim;
  }

  /** What the gateway serves of a deployment, each rate under its own name. */
  lemma DeploymentMeans(d: DeploymentConfig)
    requires Decimal.ReadsBack(d.price.inputRate) && Decimal.ReadsBack(d.price.outputRate)
    ensures var served := DeploymentOf(d);
            && served.provider == d.provider && served.upstreamModel == d.upstreamModel
            && Ok(served.price.inputRate) == Decimal.ParseDecimal(d.price.inputRate)
            && Ok(served.price.outputRate) == Decimal.ParseDecimal(d.price.outputRate)
            && (served.actualPrice.Some? <==> d.actualPrice.Some?)
            && (served.actualPoints.Some? <==> d.actualPoints.Some?)
    ensures (&& d.actualPrice.Some? && Decimal.ReadsBack(d.actualPrice.value.inputRate)
             && Decimal.ReadsBack(d.actualPrice.value.outputRate)) ==>
              var served := DeploymentOf(d).actualPrice.value;
              && Ok(served.inputRate) == Decimal.ParseDecimal(d.actualPrice.value.inputRate)
              && Ok(served.outputRate) == Decimal.ParseDecimal(d.actualPrice.value.outputRate)
    ensures (&& d.actualPoints.Some? && Decimal.ReadsBack(d.actualPoints.value.inputRate)
             && Decimal.ReadsBack(d.actualPoints.value.outputRate)) ==>
              var served := DeploymentOf(d).actualPoints.value;
              && Ok(served.inputRate) == Decimal.ParseDecimal(d.actualPoints.value.inputRate)
              && Ok(served.outputRate) == Decimal.ParseDecimal(d.actualPoints.value.outputRate)
  {
    hide Decimal.ParseDecimal;
  }

  lemma NegativeLimitPasses()
    ensures LimitOk("+-1") && Decimal.ParseDecimal("+-1").value < 0
  {
    hide Decimal.ParseDecimal;
    Decimal.SecondSignIsAccepted();
  }
}
