/**
  The verification tables of the classifier, and the proof that they meet what the join
  needs of them. The class rules stay a parameter.
 */
module ClassifierTables {
  import opened ImpactClassifier

  /** Shell matching, as far as the tables use it: a star stands for any characters. */
  predicate Glob(pattern: string, path: string)
    decreases |pattern| + |path|
  {
    if pattern == "" then path == ""
    else if pattern[0] == '*' then Glob(pattern[1..], path) || (path != "" && Glob(pattern, path[1..]))
    else path != "" && path[0] == pattern[0] && Glob(pattern[1..], path[1..])
  }

  /** A pattern without a star matches itself and nothing else. */
  lemma {:induction false} LiteralExactly(pattern: string, path: string)
    requires '*' !in pattern
    ensures Glob(pattern, path) <==> pattern == path
  {
    if pattern != "" && path != "" {
      assert pattern == [pattern[0]] + pattern[1..] && path == [path[0]] + path[1..];
      assert pattern[0] in pattern;
      LiteralExactly(pattern[1..], path[1..]);
    }
  }

  /** Two stars at the end match whatever begins like that. */
  lemma {:induction false} PrefixExactly(prefix: string, path: string)
    requires '*' !in prefix
    ensures Glob(prefix + "**", path) <==> prefix <= path
  {
    if prefix == "" {
      assert "" + "**" == "**";
      StarsMatchAll(path);
    } else {
      assert (prefix + "**")[0] == prefix[0] && (prefix + "**")[1..] == prefix[1..] + "**" && prefix[0] in prefix;
      if path != "" { PrefixExactly(prefix[1..], path[1..]); }
    }
  }

  lemma {:induction false} StarsMatchAll(path: string)
    ensures Glob("**", path)
  {
    assert "**"[1..] == "*" && "*"[1..] == "";
    if path == "" {
      assert Glob("", "");
      assert Glob("*", "");
    } else {
      StarsMatchAll(path[1..]);
    }
  }

  predicate IsStateLike(path: Path) { |path| >= 2 && path[0] == '.' && path[1] == 'p' }

  /** The first two characters already rule a state file out. */
  predicate StartsElsewhere(pattern: string) {
    |pattern| >= 2 && pattern[0] != '*' && (pattern[0] != '.' || (pattern[1] != '*' && pattern[1] != 'p'))
  }

  lemma GlobFixesTheStart(pattern: string, path: string)
    requires StartsElsewhere(pattern) && IsStateLike(path)
    ensures !Glob(pattern, path)
  {
    assert pattern[1..][0] == pattern[1] && path[1..][0] == path[1];
  }

  lemma StaysElsewhere(directory: string, pattern: string, path: string)
    ensures Glob(directory + "/" + pattern, path) && StartsElsewhere(directory) ==> !IsStateLike(path)
  {
    var whole := directory + "/" + pattern;
    if StartsElsewhere(directory) && IsStateLike(path) {
      assert whole[0] == directory[0] && whole[1] == directory[1];
      GlobFixesTheStart(whole, path);
    }
  }

  predicate StartsWith(s: string, c: char) { s != "" && s[0] == c }

  lemma StaysIn(directory: string, pattern: string, path: string)
    ensures Glob(directory + "/" + pattern, path) && directory != "" && directory[0] != '*' ==>
        StartsWith(path, directory[0])
  {
    if directory != "" { assert (directory + "/" + pattern)[0] == directory[0]; }
  }

  /** Matches a pattern below a top-level directory. */
  predicate In(directory: string, pattern: string, path: string): (r: bool)
    ensures r && StartsElsewhere(directory) ==> !IsStateLike(path)
    ensures r && directory != "" && directory[0] != '*' ==> StartsWith(path, directory[0])
  {
    StaysElsewhere(directory, pattern, path);
    StaysIn(directory, pattern, path);
    Glob(directory + "/" + pattern, path)
  }

  predicate EndsWith(s: string, suffix: string) {
    |s| >= |suffix| && s[|s| - |suffix|..] == suffix
  }

  /** A file right under `config/edge` with this ending. */
  predicate IsEdgeConfig(path: Path, suffix: string) {
    var directory := "config/edge/";
    directory <= path && '/' !in path[|directory|..] && EndsWith(path[|directory|..], suffix)
  }

  predicate IsEdgeImage(path: Path) {
    || path == "config/edge/rs485-device-registry.yaml"
    || IsEdgeConfig(path, "-register-map.yaml") || IsEdgeConfig(path, "-readonly-profile.yaml")
  }

  predicate IsScaleAcceptance(path: Path) { path == "scripts/run-acquisition-scale-acceptance.py" }

  predicate IsDocs(path: Path) { path == "README.md" || "docs/" <= path }

  const STATE_PATHS: set<Path> := {
    ".project/CURRENT_STATE.md",
    ".project/ACTIVE_SPRINT.json",
    ".project/BLOCKERS.md",
    ".project/LAST_CHECKPOINT.json"
  }

  predicate IsToolchain(path: Path) { path in {"next.config.ts", "package-lock.json", "package.json"} }

  predicate IsOffline(path: Path) {
    || IsToolchain(path) || IsOfflineScript(path) || IsOfflineService(path) || IsOfflineDelivery(path)
  }

  predicate IsOfflineScript(path: Path) {
    || In("scripts", "prepare-version-update-lock.py", path)
    || In("scripts", "tests/test_prepare_version_update_lock.py", path)
    || In("scripts", "deploy-complete-partial-frontends.py", path)
    || In("scripts", "tests/test_deploy_complete_partial_frontends.py", path)
    || In("scripts", "nexolab-protected-frontend.py", path)
    || In("scripts", "nexolab-protected-package.py", path)
    || In("scripts", "tests/test_protected_frontend_release.py", path)
    || In("scripts", "tests/test_protected_package.py", path)
    || In("scripts", "device-agent-startup-gate.py", path)
    || In("scripts", "tests/test_device_agent_startup_gate.py", path)
  }

  predicate IsOfflineService(path: Path) {
    || In("services", "telegram-gateway/**", path)
    || In("infrastructure", "compose/**", path)
    || In("infrastructure", "offline/**", path)
    || In("infrastructure", "object-storage/**", path)
    || In("services", "device-agent/**", path)
    || In("services", "telemetry-service/**", path)
    || In("src", "app/api/**", path)
    || In("scripts", "build-offline-bundle.sh", path)
    || In("scripts", "lib/postgresql-backup-client.sh", path)
    || In("scripts", "nexolab-safe-pg-incident-backup.sh", path)
    || In("scripts", "tests/test_nexolab_incident_pg_backup.py", path)
    || In("scripts", "validate-site-dr-inventory-v2.py", path)
    || In("scripts", "nexolab-site-dr-preflight.py", path)
    || In("scripts", "nexolab-site-dr-fixture-harness.py", path)
    || In("scripts", "nexolab-site-dr-capture-handoff.py", path)
  }

  predicate IsOfflineDelivery(path: Path) {
    || In("scripts", "verify-host-container-runtime-package-policy.py", path)
    || In("scripts", "tests/test_host_container_runtime_package_policy.py", path)
    || In("scripts", "nexolab-dr-readonly-health.py", path)
    || In("scripts", "serve-prometheus-textfile.py", path)
    || In("scripts", "tests/test_lan_monitor_offline_payload.py", path)
    || In("tests", "test_ci_dr_readonly_health.py", path)
    || In("tests", "test_ci_site_dr_capture_handoff.py", path)
    || In("tests", "test_ci_site_dr_fixture_harness.py", path)
    || In("tests", "test_ci_site_dr_preflight.py", path)
    || In("tests", "test_ci_site_dr_inventory_v2.py", path)
    || In("scripts", "generate-offline-bundle-manifest.py", path)
    || In("scripts", "install-offline-bundle.sh", path)
    || In("scripts", "offline-bundle-smoke.sh", path)
    || In("scripts", "verify-offline-bundle.py", path)
    || In("scripts", "offline_image_archive.py", path)
    || In("scripts", "reissue-offline-bundle.py", path)
    || In("scripts", "tests/test_offline_image_identity.py", path)
    || In("scripts", "verify-offline-volume-preservation.sh", path)
    || In("docs", "operations/offline-installation.md", path)
    || In(".github", "workflows/offline-bundle.yml", path)
    || In("scripts", "classify-ci-impact.py", path)
  }

  predicate IsRefrigeration(path: Path) {
    || path == "package.json"
    || path == "package-lock.json"
    || path == "playwright.production.config.ts"
    || In("src", "features/display-time/**", path)
    || In("src", "hooks/use-display-time-zone*", path)
    || In("src", "hooks/use-settings-preferences*", path)
    || In("src", "components/refrigeration/**", path)
    || In("src", "features/refrigeration/**", path)
    || In("services", "telemetry-service/app/refrigeration/**", path)
    || In("services", "telemetry-service/migrations/**", path)
    || In("e2e", "refrigeration*.production.e2e.ts", path)
    || In("scripts", "run-refrigeration-browser-acceptance.sh", path)
    || In("infrastructure", "compose/compose.browser-acceptance.yaml", path)
    || In("infrastructure", "compose/compose.central.yaml", path)
    || In("infrastructure", "object-storage/**", path)
    || In(".github", "workflows/refrigeration-browser-acceptance.yml", path)
    || In("scripts", "classify-ci-impact.py", path)
    || In("docs", "refrigeration-browser-central-acceptance.md", path)
  }

  predicate IsSharedDashboard(path: Path) {
    || path == "next.config.ts"
    || path == "package-lock.json"
    || path == "package.json"
    || path == "playwright.dashboard.config.ts"
    || In("src", "features/display-time/**", path)
    || In("src", "hooks/use-display-time-zone*", path)
    || In("src", "hooks/use-settings-preferences*", path)
    || In("src", "features/security/**", path)
    || In("src", "features/acquisition/**", path)
    || In("src", "components/dashboard/**", path)
    || In("src", "app/api/device-agent/acquisition-cadence/**", path)
    || In("src", "hooks/use-dashboard-security*", path)
    || In("src", "hooks/use-dashboard-telemetry*", path)
    || In("src", "lib/telemetry/**", path)
    || In("services", "device-agent/**", path)
    || In("services", "telemetry-service/app/**", path)
    || In("services", "telemetry-service/migrations/**", path)
    || In("services", "telemetry-service/requirements.txt", path)
    || In("e2e", "authenticated-dashboard.production.e2e.ts", path)
    || In("e2e", "telemetry-acquisition-invariant.production.e2e.ts", path)
    || In("e2e", "telemetry-navigation.production.e2e.ts", path)
    || In("infrastructure", "compose/compose.browser-acceptance.yaml", path)
    || In("infrastructure", "compose/compose.central.yaml", path)
    || In("infrastructure", "object-storage/**", path)
    || path == "playwright.dashboard.config.ts"
    || In("scripts", "run-authenticated-dashboard-acceptance.sh", path)
    || In("scripts", "run-acquisition-invariant-browser-acceptance.sh", path)
    || In(".github", "workflows/authenticated-dashboard-acceptance.yml", path)
    || In("scripts", "classify-ci-impact.py", path)
    || In("docs", "authenticated-live-telemetry.md", path)
  }

  predicate IsTelegramGateway(path: Path) {
    || In("services", "telegram-gateway/**", path)
    || In("infrastructure", "compose/compose.telegram.yaml", path)
    || In("infrastructure", "compose/telegram.env.example", path)
    || In(".github", "workflows/telegram-gateway.yml", path)
    || In("tests", "telegram-*.test.ts", path)
  }

  predicate IsSupplyChain(path: Path) {
    || In("services", "telegram-gateway/**", path)
    || In("security", "container-images.json", path)
    || In("infrastructure", "object-storage/**", path)
    || In(".github", "workflows/container-supply-chain.yml", path)
  }

  predicate IsRs485Tool(path: Path) {
    || In("tools", "rs485_discovery/**", path)
  }

  predicate IsTelegramMiniapp(path: Path) {
    || In("src", "app/telegram-miniapp/**", path)
    || In("src", "app/api/telegram-miniapp/**", path)
    || In("src", "components/telegram/**", path)
    || In("e2e", "telegram-miniapp.production.e2e.ts", path)
  }

  predicate IsSettings(path: Path) {
    || In("src", "app/settings/**", path)
    || In("src", "components/settings/**", path)
    || In("src", "features/settings/**", path)
    || In("e2e", "settings.production.e2e.ts", path)
  }

  predicate IsEnergy(path: Path) {
    || In("src", "app/energy/**", path)
    || In("src", "components/energy/**", path)
    || In("src", "features/energy/**", path)
    || In("src", "hooks/use-energy-telemetry*", path)
    || In("e2e", "energy.production.e2e.ts", path)
  }

  predicate IsLive(path: Path) {
    || In("src", "app/live/**", path)
    || In("src", "components/live/**", path)
    || In("src", "components/live-dashboards/**", path)
    || In("src", "features/live/**", path)
    || In("src", "features/live-dashboards/**", path)
    || In("src", "hooks/use-live-telemetry*", path)
    || In("src", "hooks/use-live-dashboard-*", path)
    || In("e2e", "live*.production.e2e.ts", path)
  }

  predicate IsEquipment(path: Path) {
    || In("src", "app/equipment/**", path)
    || In("src", "app/equipment-layouts/**", path)
    || In("src", "components/equipment/**", path)
    || In("src", "components/equipment-layouts/**", path)
    || In("src", "features/equipment/**", path)
    || In("src", "features/equipment-layouts/**", path)
    || In("src", "hooks/use-equipment-*", path)
    || In("e2e", "equipment*.production.e2e.ts", path)
  }

  predicate IsCharts(path: Path) {
    || In("src", "components/charts/**", path)
    || In("src", "features/charts/**", path)
    || In("e2e", "*chart*.production.e2e.ts", path)
  }

  const DOMAINS: seq<Domain> := [
    Domain(IsTelegramMiniapp, "telegram-miniapp.production.e2e.ts"),
    Domain(IsSettings, "settings.production.e2e.ts"),
    Domain(IsEnergy, "energy.production.e2e.ts"),
    Domain(IsLive, "live*.production.e2e.ts"),
    Domain(IsEquipment, "equipment*.production.e2e.ts"),
    Domain(IsCharts, "*chart*.production.e2e.ts")
  ]

  function ActualTables(rules: seq<Rule>): Tables {
    Tables(STATE_PATHS, IsDocs, rules, IsOffline, IsRefrigeration, IsSharedDashboard, DOMAINS,
           IsTelegramGateway, IsSupplyChain, IsEdgeImage, IsScaleAcceptance, IsRs485Tool)
  }

  // ---- state files are not covered ----

  lemma StateIsNotOfflineService(path: Path)
    requires IsStateLike(path)
    ensures !IsOfflineService(path)
  {
    hide In, StartsWith;
  }

  lemma StateIsNotOfflineScript(path: Path)
    requires IsStateLike(path)
    ensures !IsOfflineScript(path)
  {
    hide In, StartsWith;
  }

  lemma StateIsNotOfflineDelivery(path: Path)
    requires IsStateLike(path)
    ensures !IsOfflineDelivery(path)
  {
    hide In, StartsWith;
  }

  lemma StateIsNoToolchain(path: Path)
    requires IsStateLike(path)
    ensures !IsToolchain(path)
  {
    assert "next.config.ts"[0] == 'n' && "package-lock.json"[0] == 'p' && "package.json"[0] == 'p';
  }

  lemma StateIsNotOffline(path: Path)
    requires IsStateLike(path)
    ensures !IsOffline(path)
  {
    StateIsNoToolchain(path);
    StateIsNotOfflineScript(path);
    StateIsNotOfflineDelivery(path);
    StateIsNotOfflineService(path);
    hide IsStateLike, IsOfflineScript, IsOfflineDelivery, IsOfflineService, IsToolchain;
  }

  lemma StateIsNotRefrigeration(path: Path)
    requires IsStateLike(path)
    ensures !IsRefrigeration(path)
  {
    hide In, StartsWith;
  }

  lemma StateIsNotSharedDashboard(path: Path)
    requires IsStateLike(path)
    ensures !IsSharedDashboard(path)
  {
    hide In, StartsWith;
  }

  lemma StateIsInNoDomain(path: Path)
    requires IsStateLike(path)
    ensures !IsTelegramMiniapp(path)
    ensures !IsSettings(path)
    ensures !IsEnergy(path)
    ensures !IsLive(path)
    ensures !IsEquipment(path)
    ensures !IsCharts(path)
  {
    hide In, StartsWith;
  }

  lemma StateIsNothingElse(path: Path)
    requires IsStateLike(path)
    ensures !IsTelegramGateway(path)
    ensures !IsSupplyChain(path)
    ensures !IsRs485Tool(path)
    ensures !IsEdgeImage(path)
    ensures !IsScaleAcceptance(path)
  {
    hide In, StartsWith;
    assert "config/edge/"[0] == 'c';
  }

  lemma StateIsStateLike(path: Path)
    requires path in STATE_PATHS
    ensures IsStateLike(path)
  {
  }

  /** The domains' test selections differ. */
  lemma TestsAreDistinct()
    ensures DistinctTests(DOMAINS)
  {
    assert |DOMAINS| == 6;
    assert DOMAINS[0].test == "telegram-miniapp.production.e2e.ts";
    assert DOMAINS[1].test == "settings.production.e2e.ts";
    assert DOMAINS[2].test == "energy.production.e2e.ts";
    assert DOMAINS[3].test == "live*.production.e2e.ts";
    assert DOMAINS[4].test == "equipment*.production.e2e.ts";
    assert DOMAINS[5].test == "*chart*.production.e2e.ts";
  }

  lemma DomainsDoNotApply(path: Path)
    requires IsStateLike(path)
    ensures forall i :: 0 <= i < |DOMAINS| ==> !DOMAINS[i].applies(path)
  {
    StateIsInNoDomain(path);
    hide IsTelegramMiniapp, IsSettings, IsEnergy, IsLive, IsEquipment, IsCharts, IsStateLike;
    assert |DOMAINS| == 6;
    assert !DOMAINS[0].applies(path);
    assert !DOMAINS[1].applies(path);
    assert !DOMAINS[2].applies(path);
    assert !DOMAINS[3].applies(path);
    assert !DOMAINS[4].applies(path);
    assert !DOMAINS[5].applies(path);
  }

  /** The tables in use meet what the join needs. */
  lemma ActualTablesAreWellFormed(rules: seq<Rule>)
    ensures WellFormed(ActualTables(rules))
  {
    hide IsOffline, IsRefrigeration, IsSharedDashboard, IsTelegramMiniapp, IsSettings, IsEnergy, IsLive, IsEquipment;
    hide IsCharts, IsTelegramGateway, IsSupplyChain, IsRs485Tool, IsEdgeImage, IsScaleAcceptance, IsDocs, IsStateLike;
    hide DistinctTests, DOMAINS, STATE_PATHS;
    forall path | path in STATE_PATHS ensures Uncovered(ActualTables(rules), path) {
      StateIsStateLike(path);
      StateIsNotOffline(path);
      StateIsNotRefrigeration(path);
      StateIsNotSharedDashboard(path);
      DomainsDoNotApply(path);
      StateIsNothingElse(path);
    }
    TestsAreDistinct();
  }

  // ---- what the tables in use require for some paths ----

  const REGISTRY := "config/edge/rs485-device-registry.yaml"

  lemma ConfigIsNotOfflineService(path: Path)
    requires StartsWith(path, 'c')
    ensures !IsOfflineService(path)
  {
    hide In, IsStateLike, StartsElsewhere;
  }

  lemma ConfigIsNotOfflineScript(path: Path)
    requires StartsWith(path, 'c')
    ensures !IsOfflineScript(path)
  {
    hide In, IsStateLike, StartsElsewhere;
  }

  lemma ConfigIsNotOfflineDelivery(path: Path)
    requires StartsWith(path, 'c')
    ensures !IsOfflineDelivery(path)
  {
    hide In, IsStateLike, StartsElsewhere;
  }

  lemma ConfigIsNoToolchain(path: Path)
    requires StartsWith(path, 'c')
    ensures !IsToolchain(path)
  {
    assert "next.config.ts"[0] == 'n' && "package-lock.json"[0] == 'p' && "package.json"[0] == 'p';
  }

  lemma ConfigIsNotOffline(path: Path)
    requires StartsWith(path, 'c')
    ensures !IsOffline(path)
  {
    ConfigIsNoToolchain(path);
    ConfigIsNotOfflineScript(path);
    ConfigIsNotOfflineDelivery(path);
    ConfigIsNotOfflineService(path);
    hide StartsWith, IsOfflineScript, IsOfflineDelivery, IsOfflineService, IsToolchain;
  }

  lemma ConfigIsNotRefrigeration(path: Path)
    requires StartsWith(path, 'c')
    ensures !IsRefrigeration(path)
  {
    hide In, IsStateLike, StartsElsewhere;
  }

  lemma ConfigIsNotSharedDashboard(path: Path)
    requires StartsWith(path, 'c')
    ensures !IsSharedDashboard(path)
  {
    hide In, IsStateLike, StartsElsewhere;
  }

  lemma ConfigIsNotTelegramGateway(path: Path)
    requires StartsWith(path, 'c')
    ensures !IsTelegramGateway(path)
  {
    hide In, IsStateLike, StartsElsewhere;
  }

  lemma ConfigIsNotSupplyChain(path: Path)
    requires StartsWith(path, 'c')
    ensures !IsSupplyChain(path)
  {
    hide In, IsStateLike, StartsElsewhere;
  }

  lemma ConfigIsNotRs485Tool(path: Path)
    requires StartsWith(path, 'c')
    ensures !IsRs485Tool(path)
  {
    hide In, IsStateLike, StartsElsewhere;
  }

  lemma ConfigIsInNoDomain(path: Path)
    requires StartsWith(path, 'c')
    ensures !IsTelegramMiniapp(path) && !IsSettings(path) && !IsEnergy(path)
    ensures !IsLive(path) && !IsEquipment(path) && !IsCharts(path)
  {
    hide In, IsStateLike, StartsElsewhere;
  }

  lemma NoDomainForConfig(path: Path)
    requires StartsWith(path, 'c')
    ensures forall i :: 0 <= i < |DOMAINS| ==> !DOMAINS[i].applies(path)
  {
    ConfigIsInNoDomain(path);
    hide IsTelegramMiniapp, IsSettings, IsEnergy, IsLive, IsEquipment, IsCharts, StartsWith;
    assert |DOMAINS| == 6;
    assert !DOMAINS[0].applies(path);
    assert !DOMAINS[1].applies(path);
    assert !DOMAINS[2].applies(path);
    assert !DOMAINS[3].applies(path);
    assert !DOMAINS[4].applies(path);
    assert !DOMAINS[5].applies(path);
  }

  lemma TablesAre(rules: seq<Rule>)
    ensures var t := ActualTables(rules);
            && t.offline == IsOffline && t.refrigeration == IsRefrigeration && t.shared == IsSharedDashboard
            && t.domains == DOMAINS && t.telegram == IsTelegramGateway && t.supplyChain == IsSupplyChain
            && t.edgeImage == IsEdgeImage && t.scale == IsScaleAcceptance && t.tools == IsRs485Tool
  {
  }

  lemma RegistryIs()
    ensures StartsWith(REGISTRY, 'c') && IsEdgeImage(REGISTRY) && !IsScaleAcceptance(REGISTRY)
  {
    assert REGISTRY[0] == 'c' && "scripts/run-acquisition-scale-acceptance.py"[0] == 's';
  }

  /** A change of the device registry alone is verified by the edge image workflow, and by
      no other. */
  lemma RegistryNeedsEdgeImageOnly(rules: seq<Rule>, plan: Plan)
    requires PlanFits(ActualTables(rules), {REGISTRY}, false, plan)
    ensures plan == Plan(NoDashboard, false, false, [EdgeImage])
  {
    hide *;
    TablesAre(rules);
    RegistryIs();
    ConfigIsNotOffline(REGISTRY);
    ConfigIsNotRefrigeration(REGISTRY);
    ConfigIsNotSharedDashboard(REGISTRY);
    ConfigIsNotTelegramGateway(REGISTRY);
    ConfigIsNotSupplyChain(REGISTRY);
    ConfigIsNotRs485Tool(REGISTRY);
    NoDomainForConfig(REGISTRY);
    EdgeImageOnly(ActualTables(rules), REGISTRY, plan);
  }

  const RUNNER := "scripts/run-acquisition-scale-acceptance.py"

  lemma RunnerIs()
    ensures IsScaleAcceptance(RUNNER) && !IsEdgeImage(RUNNER)
  {
    assert RUNNER[0] == 's' && REGISTRY[0] == 'c' && "config/edge/"[0] == 'c';
  }

  /** A change of the scale acceptance runner requires its workflow, and no edge image. */
  lemma RunnerNeedsScale(rules: seq<Rule>, failClosed: bool, plan: Plan)
    requires PlanFits(ActualTables(rules), {RUNNER}, failClosed, plan)
    ensures AcquisitionScale in plan.required && EdgeImage !in plan.required
  {
    hide *;
    TablesAre(rules);
    RunnerIs();
    assert RUNNER in {RUNNER};
    FitsTable(ActualTables(rules), {RUNNER}, failClosed, plan);
  }

  lemma FitsTable(t: Tables, files: set<Path>, failClosed: bool, plan: Plan)
    requires PlanFits(t, files, failClosed, plan)
    ensures AcquisitionScale in plan.required <==> exists p :: p in files && t.scale(p)
    ensures EdgeImage in plan.required <==> exists p :: p in files && t.edgeImage(p)
    ensures forall p :: p in files && t.telegram(p) ==> TelegramGateway in plan.required
    ensures forall p :: p in files && t.supplyChain(p) ==> SupplyChain in plan.required
    ensures forall p :: p in files && t.offline(p) ==> OfflineBundle in plan.required
  {
    hide ModeFits, Ranked;
  }

  /** Everything below the gateway's directory requires its tests, the supply chain and the
      offline bundle, whatever else is changed. */
  lemma GatewayNeedsThree(rules: seq<Rule>, files: set<Path>, path: Path, failClosed: bool, plan: Plan)
    requires "services/telegram-gateway/" <= path && path in files
    requires PlanFits(ActualTables(rules), files, failClosed, plan)
    ensures TelegramGateway in plan.required && SupplyChain in plan.required && OfflineBundle in plan.required
  {
    hide *;
    TablesAre(rules);
    GatewayIsIn(path);
    GatewayIsCovered(path);
    FitsTable(ActualTables(rules), files, failClosed, plan);
  }

  lemma GatewayIsCovered(path: Path)
    requires In("services", "telegram-gateway/**", path)
    ensures IsTelegramGateway(path) && IsSupplyChain(path) && IsOffline(path)
  {
    hide In, IsStateLike, StartsElsewhere, StartsWith;
  }

  lemma GatewayIsIn(path: Path)
    requires "services/telegram-gateway/" <= path
    ensures In("services", "telegram-gateway/**", path)
  {
    var prefix := "services/telegram-gateway/";
    assert "services" + "/" + "telegram-gateway/**" == prefix + "**";
    PrefixExactly(prefix, path);
    hide Glob;
  }

  /** With the tables in use, the result for a change is the join of the results for any
      two parts of it, whatever the class rules. */
  lemma ActualClassificationJoins(rules: seq<Rule>, p: set<Path>, q: set<Path>)
    requires p != {} && q != {}
    ensures var t := ActualTables(rules);
            var (a, b, c) := (Classification(t, p), Classification(t, q), Classification(t, p + q));
            && c.plan == Join(a.plan, b.plan)
            && c.failClosed == (a.failClosed || b.failClosed)
            && c.needsFullQuality == (a.needsFullQuality || b.needsFullQuality)
  {
    hide *;
    ActualTablesAreWellFormed(rules);
    ClassificationJoins(ActualTables(rules), p, q);
  }

  /** With the tables in use the classes of a state file and a document are not those of
      the two together. */
  lemma StateAndReadmeDoNotJoin(rules: seq<Rule>)
    requires ProperRules(rules)
    ensures var t := ActualTables(rules); var (p, q) := ({".project/CURRENT_STATE.md"}, {"README.md"});
            Classification(t, p + q).classes != Classification(t, p).classes + Classification(t, q).classes
  {
    var t, p, q := ActualTables(rules), {".project/CURRENT_STATE.md"}, {"README.md"};
    var readme := "README.md";
    StateIsStateLike(".project/CURRENT_STATE.md");
    assert !IsStateLike(readme);
    assert readme !in STATE_PATHS by { if readme in STATE_PATHS { StateIsStateLike(readme); } }
    assert readme in q && IsDocs(readme);
    assert ExitOf(t, p) == StateFiles && ExitOf(t, q) == Documents;
    ClassesJoinExactly(t, p, q);
    hide Classification;
  }
}
