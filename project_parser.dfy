/**
 * `ProjectConfigParser`: reads the project settings of the Pulumi stack once,
 * fills in defaults, and serves them through a process-wide instance.
 */
module ProjectParser {
  import opened Wrappers

  /** Pulumi stack configuration: a key absent from the map is an unset setting. */
  type PulumiConfig = map<string, string>

  datatype GCPProjectConfig = GCPProjectConfig(
    projectId: string,
    projectNumber: string,
    organizationId: Option<string>,
    billingAccount: Option<string>,
    primaryRegion: string,
    failoverRegion: string,
    environment: string,
    dnsZone: Option<string>,
    serviceAccounts: map<string, string>)

  /** `ConfigMissingError`, thrown by `require` for an unset key. */
  datatype ConfigError = ConfigMissing(key: string)

  const DefaultPrimaryRegion := "australia-southeast2"
  const DefaultFailoverRegion := "asia-southeast1"

  /** `pulumiConfig.get(key)`. */
  function Get(pc: PulumiConfig, key: string): Option<string>
  {
    if key in pc then Some(pc[key]) else None
  }

  /** `value || fallback` for an optional string: unset and "" both give the fallback. */
  function OrElse(value: Option<string>, fallback: string): string
  {
    if value.Some? && value.value != "" then value.value else fallback
  }

  /**
   * The constructor's object literal. `require` fails on an unset
   * `projectId`, then on an unset `projectNumber` (an empty string passes);
   * the regions fall back to their defaults when unset or empty; the
   * environment is the stack name and no service accounts are recorded.
   */
  function ParseConfig(pc: PulumiConfig, stack: string): (r: Result<GCPProjectConfig, ConfigError>)
    ensures "projectId" !in pc ==> r == Failure(ConfigMissing("projectId"))
    ensures "projectId" in pc && "projectNumber" !in pc ==> r == Failure(ConfigMissing("projectNumber"))
    ensures r.Success? <==> "projectId" in pc && "projectNumber" in pc
    ensures r.Success? ==>
      && r.value.projectId == pc["projectId"]
      && r.value.projectNumber == pc["projectNumber"]
      && (r.value.organizationId.Some? <==> "organizationId" in pc)
      && (r.value.organizationId.Some? ==> r.value.organizationId.value == pc["organizationId"])
      && (r.value.billingAccount.Some? <==> "billingAccount" in pc)
      && (r.value.billingAccount.Some? ==> r.value.billingAccount.value == pc["billingAccount"])
      && r.value.environment == stack
      && r.value.dnsZone.None?
      && r.value.serviceAccounts == map[]
    ensures r.Success? ==>
      && (("primaryRegion" !in pc || pc["primaryRegion"] == "") ==> r.value.primaryRegion == "australia-southeast2")
      && (("primaryRegion" in pc && pc["primaryRegion"] != "") ==> r.value.primaryRegion == pc["primaryRegion"])
      && (("failoverRegion" !in pc || pc["failoverRegion"] == "") ==> r.value.failoverRegion == "asia-southeast1")
      && (("failoverRegion" in pc && pc["failoverRegion"] != "") ==> r.value.failoverRegion == pc["failoverRegion"])
  {
    var projectId := Get(pc, "projectId");
    if projectId.None? then Failure(ConfigMissing("projectId"))
    else
      var projectNumber := Get(pc, "projectNumber");
      if projectNumber.None? then Failure(ConfigMissing("projectNumber"))
      else Success(GCPProjectConfig(
        projectId := projectId.value,
        projectNumber := projectNumber.value,
        organizationId := Get(pc, "organizationId"),
        billingAccount := Get(pc, "billingAccount"),
        primaryRegion := OrElse(Get(pc, "primaryRegion"), DefaultPrimaryRegion),
        failoverRegion := OrElse(Get(pc, "failoverRegion"), DefaultFailoverRegion),
        environment := stack,
        dnsZone := None,
        serviceAccounts := map[]))
  }

  class ProjectConfigParser {
    const config: GCPProjectConfig

    /** Only reached when parsing succeeds; the failing case is the error `GetInstance` returns. */
    constructor (pc: PulumiConfig, stack: string)
      requires ParseConfig(pc, stack).Success?
      ensures config == ParseConfig(pc, stack).value
    {
      config := ParseConfig(pc, stack).value;
    }

    /** The stored configuration, as it was built. */
    function GetConfig(): (c: GCPProjectConfig)
      ensures c == config
    {
      config
    }

    /** `<environment>-<service>-<name>`. */
    function GetResourceName(service: string, name: string): (r: string)
      ensures |r| == |config.environment| + |service| + |name| + 2
      ensures r[..|config.environment|] == config.environment
      ensures r[|config.environment|] == '-'
      ensures r[|config.environment| + 1..|config.environment| + 1 + |service|] == service
      ensures r[|config.environment| + 1 + |service|] == '-'
      ensures r[|config.environment| + 2 + |service|..] == name
    {
      config.environment + "-" + service + "-" + name
    }

    /** The tags without the wall-clock `deployedAt` entry. */
    function GetTags(): (tags: map<string, string>)
      ensures tags.Keys == {"environment", "project", "managedBy"}
      ensures tags["environment"] == config.environment
      ensures tags["project"] == config.projectId
      ensures tags["managedBy"] == "pulumi"
    {
      map["environment" := config.environment, "project" := config.projectId, "managedBy" := "pulumi"]
    }
  }

  /** The static `ProjectConfigParser.instance` field. */
  class InstanceSlot {
    var instance: ProjectConfigParser?

    constructor ()
      ensures instance == null
    {
      instance := null;
    }

    /**
     * The first successful call builds the parser and keeps it; every later
     * call returns that same object, whatever the configuration now says. A
     * failed construction leaves the slot empty, so the next call tries again.
     */
    method GetInstance(pc: PulumiConfig, stack: string) returns (r: Result<ProjectConfigParser, ConfigError>)
      modifies this
      ensures old(instance) != null ==> instance == old(instance) && r == Success(instance)
      ensures old(instance) == null && ParseConfig(pc, stack).Failure? ==>
        instance == null && r == Failure(ParseConfig(pc, stack).error)
      ensures old(instance) == null && ParseConfig(pc, stack).Success? ==>
        instance != null && fresh(instance) && instance.config == ParseConfig(pc, stack).value &&
        r == Success(instance)
    {
      if instance == null {
        var parsed := ParseConfig(pc, stack);
        if parsed.Failure? {
          return Failure(parsed.error);
        }
        instance := new ProjectConfigParser(pc, stack);
      }
      r := Success(instance);
    }
  }

  /** Parsing never leaves a region empty: an empty setting falls back to its default. */
  lemma RegionsNeverEmpty(pc: PulumiConfig, stack: string)
    requires ParseConfig(pc, stack).Success?
    ensures ParseConfig(pc, stack).value.primaryRegion != ""
    ensures ParseConfig(pc, stack).value.failoverRegion != ""
  {
  }

  /** For one parser and one service, distinct names give distinct resource names. */
  lemma {:induction false} ResourceNameInjective(p: ProjectConfigParser, service: string, name1: string, name2: string)
    requires p.GetResourceName(service, name1) == p.GetResourceName(service, name2)
    ensures name1 == name2
  {
    var prefix := |p.config.environment| + 2 + |service|;
    assert name1 == p.GetResourceName(service, name1)[prefix..];
    assert name2 == p.GetResourceName(service, name2)[prefix..];
  }
}
