/**
 * `ProjectManager`: enables a fixed list of Google Cloud APIs on the current
 * environment's project, one `gcp.projects.Service` per API.
 */
module ProjectManager {
  import opened Wrappers
  import opened Cloud
  import opened Settings
  import opened BaseManager

  const EnabledApis: seq<string> := [
    "apigateway.googleapis.com",
    "cloudresourcemanager.googleapis.com",
    "compute.googleapis.com",
    "dns.googleapis.com",
    "monitoring.googleapis.com",
    "secretmanager.googleapis.com",
    "servicenetworking.googleapis.com",
    "sql-component.googleapis.com"
  ]

  /** The constructor's options: no `protected` flag, so the stack decides. */
  const ProjectManagerOptions := ServiceManagerOptions(
    "project-manager", "Manages project-level resources and API enablement", None, None)

  /** The enablement resource deploy creates for `api`. */
  function ApiResource(id: nat, api: string, projectId: string, options: ResourceOptions): Resource
  {
    Resource(id, api + "-enabled", ProjectService(projectId, api, false), options)
  }

  /** What deploy creates, handles from `start` on: one resource per API, in list order. */
  function ApiPlan(start: nat, apis: seq<string>, projectId: string, options: ResourceOptions): (plan: seq<Resource>)
    ensures |plan| == |apis|
  {
    seq(|apis|, i requires 0 <= i < |apis| => ApiResource(start + i, apis[i], projectId, options))
  }

  ghost predicate Distinct<T>(s: seq<T>)
  {
    forall i, j :: 0 <= i < j < |s| ==> s[i] != s[j]
  }

  class ProjectManager {
    const base: BaseServiceManager
    const enabledApis: seq<string>

    constructor (config: ConfigurationManager, stack: string)
      ensures base == BaseServiceManager(config, ProjectManagerOptions, stack)
      ensures enabledApis == EnabledApis
    {
      base := BaseServiceManager(config, ProjectManagerOptions, stack);
      enabledApis := EnabledApis;
    }

    /** The project config is rejected when its name is unset or empty, or `environments` is unset. */
    predicate Validate()
      ensures Validate() <==>
        base.config.project.name.Some? && base.config.project.name.value != "" &&
        base.config.project.environments.Some?
    {
      var projectConfig := base.config.project;
      !(!Truthy(projectConfig.name) || projectConfig.environments.None?)
    }

    method Deploy(backend: Provisioner) returns (resources: seq<Resource>)
      modifies backend
      ensures resources ==
        ApiPlan(old(|backend.created|), enabledApis, base.config.current.projectId, base.GetResourceOptions(None))
      ensures backend.created == old(backend.created) + resources
    {
      ghost var start := |backend.created|;
      resources := [];
      var projectConfig := base.config.current;
      for i := 0 to |enabledApis|
        invariant |resources| == i
        invariant forall k :: 0 <= k < i ==>
          resources[k] == ApiResource(start + k, enabledApis[k], projectConfig.projectId, base.GetResourceOptions(None))
        invariant backend.created == old(backend.created) + resources
      {
        var api := enabledApis[i];
        var enabledApi := backend.Create(api + "-enabled",
          ProjectService(projectConfig.projectId, api, false), base.GetResourceOptions(None));
        resources := resources + [enabledApi];
      }
    }
  }

  /** Suffixing the same string keeps distinct strings distinct. */
  lemma {:induction false} SuffixCancels(a: string, b: string, suffix: string)
    requires a + suffix == b + suffix
    ensures a == b
  {
    assert |a| == |b|;
    assert a == (a + suffix)[..|a|];
    assert b == (b + suffix)[..|b|];
  }

  /**
   * Resource `i` of the plan enables `apis[i]` on the given project, is named
   * `apis[i] + "-enabled"`, keeps the API on destroy and carries the given options.
   */
  lemma ApiPlanEntries(start: nat, apis: seq<string>, projectId: string, options: ResourceOptions, i: nat)
    requires i < |apis|
    ensures ApiPlan(start, apis, projectId, options)[i].id == start + i
    ensures ApiPlan(start, apis, projectId, options)[i].name == apis[i] + "-enabled"
    ensures ApiPlan(start, apis, projectId, options)[i].spec == ProjectService(projectId, apis[i], false)
    ensures ApiPlan(start, apis, projectId, options)[i].options == options
  {
  }

  /** Distinct APIs give distinct logical names. */
  lemma {:induction false} ApiPlanNamesDistinct(start: nat, apis: seq<string>, projectId: string, options: ResourceOptions)
    requires Distinct(apis)
    ensures var plan := ApiPlan(start, apis, projectId, options);
      forall i, j :: 0 <= i < j < |plan| ==> plan[i].name != plan[j].name
  {
    var plan := ApiPlan(start, apis, projectId, options);
    forall i, j | 0 <= i < j < |plan|
      ensures plan[i].name != plan[j].name
    {
      if plan[i].name == plan[j].name {
        SuffixCancels(apis[i], apis[j], "-enabled");
      }
    }
  }

  /** The eight APIs of the list are pairwise different. */
  lemma EnabledApisDistinct()
    ensures |EnabledApis| == 8
    ensures Distinct(EnabledApis)
  {
  }

  /**
   * A project manager's deployment is eight enablements, pairwise differently
   * named, none with dependencies, each protected exactly when the stack is "prod".
   */
  lemma {:induction false} ProjectPlanFacts(m: ProjectManager, start: nat)
    requires m.base.options == ProjectManagerOptions && m.enabledApis == EnabledApis
    ensures var plan := ApiPlan(start, m.enabledApis, m.base.config.current.projectId, m.base.GetResourceOptions(None));
      && |plan| == 8
      && (forall i, j :: 0 <= i < j < |plan| ==> plan[i].name != plan[j].name)
      && (forall i :: 0 <= i < |plan| ==> plan[i].options.dependsOn == None)
      && (forall i :: 0 <= i < |plan| ==> (plan[i].options.protect <==> m.base.stack == "prod"))
      && (forall i :: 0 <= i < |plan| ==> plan[i].options.tags["component"] == "project-manager")
  {
    EnabledApisDistinct();
    ApiPlanNamesDistinct(start, m.enabledApis, m.base.config.current.projectId, m.base.GetResourceOptions(None));
  }
}
