/**
 * What the managers read from the configuration manager. That component
 * (`src/config/config-parser`) is not part of this model; its getters are
 * taken as fixed values supplied when a manager is built.
 */
module Settings {
  import opened Wrappers

  /** `getCurrentEnvironment()`: only `project_id` is read. */
  datatype Environment = Environment(projectId: string)

  /** `getProjectConfig()`: `name`, `environments` and `regions.primary` are read. */
  datatype ProjectConfig = ProjectConfig(
    name: Option<string>,
    environments: Option<seq<string>>,
    primaryRegion: string)

  /** One entry of `security.service_accounts`. */
  datatype AccountDefinition = AccountDefinition(name: string, description: string)

  /** `getServiceConfig().security`. */
  datatype SecurityConfig = SecurityConfig(serviceAccounts: Option<seq<AccountDefinition>>)

  datatype ConfigurationManager = ConfigurationManager(
    current: Environment,
    project: ProjectConfig,
    security: SecurityConfig)

  /** JavaScript truthiness of an optional string: unset and "" are falsy. */
  predicate Truthy(s: Option<string>)
  {
    s.Some? && s.value != ""
  }
}
