/**
 * What every service manager shares: its declared options, the stack it was
 * built on, and the one policy that turns them into resource options.
 */
module BaseManager {
  import opened Wrappers
  import opened Cloud
  import opened Settings

  /** `ServiceManagerOptions`; `dependencies` is declared but never read by any manager. */
  datatype ServiceManagerOptions = ServiceManagerOptions(
    name: string,
    description: string,
    dependencies: Option<seq<string>>,
    protected: Option<bool>)

  const ManagedBy := "pulumi"

  /** The stack whose resources are protected by default. */
  const ProductionStack := "prod"

  /** `a ?? b`: the left operand unless it is unset. */
  function Coalesce<T>(a: Option<T>, b: T): T
  {
    if a.Some? then a.value else b
  }

  /**
   * `BaseServiceManager`: the configuration manager, the options and the
   * stack name (`pulumi.getStack()` at construction) are all readonly.
   */
  datatype BaseServiceManager = BaseServiceManager(
    config: ConfigurationManager,
    options: ServiceManagerOptions,
    stack: string)
  {
    /**
     * An explicit `protected` flag wins, `false` included, on every stack;
     * only an unset flag falls back to "the stack is prod". Dependencies are
     * passed through as given, and the tags name stack, component and tool.
     */
    function GetResourceOptions(additionalDependencies: Option<seq<Resource>>): (r: ResourceOptions)
      ensures options.protected.Some? ==> r.protect == options.protected.value
      ensures options.protected.None? ==> (r.protect <==> stack == "prod")
      ensures r.dependsOn == additionalDependencies
      ensures r.tags.Keys == {"environment", "component", "managedBy"}
      ensures r.tags["environment"] == stack
      ensures r.tags["component"] == options.name
      ensures r.tags["managedBy"] == "pulumi"
    {
      ResourceOptions(
        protect := Coalesce(options.protected, stack == ProductionStack),
        dependsOn := additionalDependencies,
        tags := map["environment" := stack, "component" := options.name, "managedBy" := ManagedBy])
    }
  }
}
