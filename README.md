# Service managers of a Pulumi GCP deployment, modelled in Dafny

This project models the core of a small Pulumi program that provisions Google
Cloud infrastructure through "service managers". Each manager owns one domain:

- `ProjectManager` enables eight Google Cloud APIs.
- `NetworkingManager` creates a VPC, three subnets and two firewall rules.
- `SecurityManager` creates service accounts, a KMS key ring and an encryption key.

All three share `BaseServiceManager`. It captures the manager's options and
the stack name once, and `getResourceOptions` turns them into the
`protect` / `dependsOn` / `tags` record that goes with every resource. Beside
them, `ProjectConfigParser` reads the stack configuration once, fills in
defaults and serves it through a lazily built singleton.

How the model is laid out:

- `cloud.dfy` (`Cloud`) stands in for the cloud SDK. Every resource
  constructor is one `Provisioner.Create` step. It appends a descriptor to the
  provisioner's log: the logical name, the kind with the arguments the manager
  passed, and the resource options. It returns the resource; the resource's
  handle is its position in the log.
- `base_manager.dfy` (`BaseManager`) is `ServiceManagerOptions` and
  `BaseServiceManager`. The base has only readonly fields, so it is a
  datatype, and `GetResourceOptions` is a function of it. That the same
  arguments always give the same record therefore holds by construction.
- `project_manager.dfy`, `networking_manager.dfy`, `security_manager.dfy` hold
  one class per manager. The class has the source's fields: `vpc`, the
  `subnets` map, the `firewalls` list, the `serviceAccounts` map. Its
  constructor fixes the options, `Validate` is a predicate over the
  configuration, and `Deploy` is a method with the source's loops. The
  networking and security loops are each a helper method of their own
  (`CreateSubnets`, `CreateFirewalls`, `CreateServiceAccounts`); the project
  manager's loop stays inside `Deploy`. Each
  `Deploy` is proved against a plan function (`ApiPlan`, `NetworkPlan`,
  `SecurityPlan`) that lists the resources it creates, in order. The lemmas
  state counts, order, names, dependency edges, protection and the fields left
  behind in terms of those plans.
- `project_parser.dfy` (`ProjectParser`) is the configuration parser. The
  stack configuration is a `map<string, string>` in which a missing key is an
  unset setting. The static `instance` field is the `InstanceSlot` class.
- `settings.dfy` holds what the managers read from the configuration manager.
  `wrappers.dfy` holds `Option`/`Result`. `map_writes.dfy` is a JavaScript
  `Map` written key by key, where the last write wins. `cidr.dfy` holds IPv4
  prefix blocks (section 3.1 of RFC 4632). `decimal.dfy` holds decimal numerals.

No orchestrator, topological sort or use of `options.dependencies` exists in
these files, so none is modelled. `dependencies` is a field of
`ServiceManagerOptions` that nothing reads. The validations are as weak as the
code writes them: `SecurityManager.Validate` accepts an empty
`service_accounts` list and `ProjectManager.Validate` accepts an empty
`environments` list. The `managedBy` tag value is `"pulumi"`.

## Model

| member | source | states |
|---|---|---|
| `BaseManager.BaseServiceManager.GetResourceOptions` | src/core/base-manager.ts:34-44 | a set `protected` flag is `protect` on every stack, an explicit `false` included; an unset flag gives `protect` iff the stack is exactly "prod"; `dependsOn` is the argument unchanged (unset when none is passed); the tags have exactly the keys environment = stack, component = manager name, managedBy = "pulumi" |
| `ProjectManager.ProjectManager.constructor` | src/core/project-manager.ts:18-35 | the manager is named "project-manager", leaves `protected` unset and holds the eight-API list |
| `ProjectManager.ProjectManager.Validate` | src/core/project-manager.ts:37-46 | false iff the project name is unset or empty, or `environments` is unset; an empty `environments` list passes |
| `ProjectManager.ProjectManager.Deploy` | src/core/project-manager.ts:48-67 | returns the plan of one enablement per API in list order, with handles following those already created, and appends exactly those to the provisioner's log |
| `ProjectManager.ApiPlanEntries` | src/core/project-manager.ts:53-64 | resource i is named `api + "-enabled"`, enables `api` on the current project with `disableOnDestroy = false`, and carries the options of the call |
| `ProjectManager.ApiPlanNamesDistinct` | src/core/project-manager.ts:53-58 | distinct APIs give pairwise distinct logical names |
| `ProjectManager.EnabledApisDistinct` | src/core/project-manager.ts:19-28 | the API list has eight pairwise different entries |
| `ProjectManager.ProjectPlanFacts` | src/core/project-manager.ts:48-67 | a project manager deploys exactly 8 resources with distinct names, none with dependencies, each protected iff the stack is "prod", each tagged component "project-manager" |
| `NetworkingManager.NetworkingManager.constructor` | src/core/networking-manager.ts:7-18 | options "networking-manager" with `protected` set; `vpc` unset, `subnets` and `firewalls` empty |
| `NetworkingManager.NetworkingManager.Validate` | src/core/networking-manager.ts:20-23 | always true |
| `NetworkingManager.NetworkingManager.Deploy` | src/core/networking-manager.ts:25-110 | returns the VPC, subnet and firewall plan and logs exactly it; afterwards `vpc` is the network, `subnets` is the old map with app/data/api set in order to the created subnets, `firewalls` is the old list plus the two firewalls |
| `NetworkingManager.NetworkingManager.CreateSubnets` | src/core/networking-manager.ts:43-64 | the subnet loop: creates the subnet plan in table order and sets each name in `subnets` to its subnet, in order |
| `NetworkingManager.NetworkingManager.CreateFirewalls` | src/core/networking-manager.ts:66-107 | the firewall loop: creates the firewall plan in rule order and appends each firewall to `firewalls` |
| `NetworkingManager.NetworkPlanNames` | src/core/networking-manager.ts:29-107 | six resources in order: the network "main-vpc", subnets app, data, api, firewalls allow-internal, allow-https |
| `NetworkingManager.NetworkPlanEdges` | src/core/networking-manager.ts:30-104 | the network depends on nothing; every subnet and firewall depends on exactly `[vpc]`; subnets refer to the network's id and firewalls to its name; handles are consecutive |
| `NetworkingManager.SubnetPlanEntries` | src/core/networking-manager.ts:50-61 | subnet i is `name + "-subnet"` in the configured primary region with its table CIDR and private Google access |
| `NetworkingManager.NetworkingAlwaysProtected` | src/core/networking-manager.ts:12-17 | with the networking options every created resource has `protect = true`, on every stack |
| `NetworkingManager.AllowsProtocols` | src/core/networking-manager.ts:88-100 | the allow list starts with tcp, has udp iff the rule has a udp list, icmp iff the rule sets icmp, and its length counts those |
| `NetworkingManager.FirewallAllowLists` | src/core/networking-manager.ts:67-100 | allow-internal opens tcp, udp and icmp (3 entries); allow-https opens tcp port 443 only (1 entry) |
| `NetworkingManager.FirewallPlanEntries` | src/core/networking-manager.ts:82-104 | deployed firewall i is `rule.name + "-firewall"` on the VPC's name, with the rule's allow list and source ranges |
| `NetworkingManager.DeployedFirewalls` | src/core/networking-manager.ts:67-104 | the deployed allow-internal firewall has 3 allow entries (tcp, udp, icmp) from 10.0.0.0/8; the deployed allow-https firewall has 1 (tcp 443) from 0.0.0.0/0 |
| `NetworkingManager.FirstDeploy` | src/core/networking-manager.ts:8-109 | a fresh manager deployed once has `vpc` = the network, `subnets` = {app, data, api} mapped to resources 1-3, and `firewalls` = resources 4 and 5 |
| `NetworkingManager.BlocksMatchConfig` | src/core/networking-manager.ts:44-70 | the address blocks reasoned about are exactly the CIDR strings of the subnet table and of the allow-internal source range |
| `NetworkingManager.DeployedSubnetsInsideInternalRange` | src/core/networking-manager.ts:44-70 | every deployed subnet's CIDR is a block inside the block the deployed allow-internal firewall admits as its source range |
| `NetworkingManager.SubnetBlocksDisjointAndInternal` | src/core/networking-manager.ts:44-70 | the three subnet blocks are well formed, pairwise disjoint, and each lies inside 10.0.0.0/8 |
| `MapWrites.SetAllLastWriteWins` | src/core/security-manager.ts:46 | after `Map.set` calls in order, a written key holds the value of its last write and an unwritten key keeps its old value |
| `SecurityManager.SecurityManager.constructor` | src/core/security-manager.ts:7-16 | options "security-manager" with `protected` set; `serviceAccounts` empty |
| `SecurityManager.SecurityManager.Validate` | src/core/security-manager.ts:18-27 | false iff `service_accounts` is unset; an empty list passes |
| `SecurityManager.SecurityManager.Deploy` | src/core/security-manager.ts:29-76 | fails, creating nothing, exactly when `service_accounts` is unset; otherwise returns and logs the n accounts in config order, the key ring and the key, and `serviceAccounts` becomes the old map with each name set, in order, to its account |
| `SecurityManager.SecurityManager.CreateServiceAccounts` | src/core/security-manager.ts:34-48 | the account loop: creates one account per definition in config order and sets each name in `serviceAccounts` to its account, in order |
| `SecurityManager.SecurityPlanAccounts` | src/core/security-manager.ts:35-48 | the first n resources of the plan are the accounts, which are what the map is written from |
| `SecurityManager.AccountEntries` | src/core/security-manager.ts:35-45 | account i has logical name and `accountId` = name + "-sa", `displayName` = name, the configured description, and no dependencies |
| `SecurityManager.KeyRingAndKey` | src/core/security-manager.ts:51-73 | the key ring is "main-keyring" in the primary region with no dependencies; the key "encryption-key" sits in that key ring, rotates every "7776000s", has purpose ENCRYPT_DECRYPT and depends on exactly `[keyRing]` |
| `SecurityManager.RotationIsNinetyDays` | src/core/security-manager.ts:68 | the rotation period "7776000s" is 90 × 86400 seconds |
| `SecurityManager.SecurityAlwaysProtected` | src/core/security-manager.ts:10-16 | with the security options every created resource has `protect = true`, on every stack |
| `SecurityManager.RegisteredAccount` | src/core/security-manager.ts:35-48 | after deploy a configured name maps to the account of its last definition |
| `SecurityManager.DuplicateNameKeepsBoth` | src/core/security-manager.ts:35-48 | for a repeated name both accounts are created (distinct resources, same `accountId`) and the map keeps the later one |
| `ProjectParser.ParseConfig` | src/config/project-parser.ts:27-41 | fails on unset `projectId`, then on unset `projectNumber`, and only then; otherwise copies both, passes `organizationId`/`billingAccount` through as optional, defaults unset or empty regions to australia-southeast2 / asia-southeast1, sets `environment` to the stack and starts with no service accounts |
| `ProjectParser.ProjectConfigParser.constructor` | src/config/project-parser.ts:27-44 | the parser's config is the parsed configuration |
| `ProjectParser.ProjectConfigParser.GetConfig` | src/config/project-parser.ts:53-55 | returns the stored config unchanged |
| `ProjectParser.ProjectConfigParser.GetResourceName` | src/config/project-parser.ts:57-59 | the name is the environment, "-", the service, "-", the name, piece by piece |
| `ProjectParser.ProjectConfigParser.GetTags` | src/config/project-parser.ts:61-65 | exactly the keys environment = stack, project = projectId, managedBy = "pulumi" |
| `ProjectParser.InstanceSlot.GetInstance` | src/config/project-parser.ts:46-51 | the first successful call builds the parser from the configuration and stores it; later calls return that same object; a failing construction stores nothing |
| `ProjectParser.RegionsNeverEmpty` | src/config/project-parser.ts:37-38 | a parsed configuration never has an empty region |
| `ProjectParser.ResourceNameInjective` | src/config/project-parser.ts:57-59 | for one parser and service, different names give different resource names |

## Left out

- Pulumi and GCP SDK resource constructors are foreign code. Each is one recorder step that logs a descriptor; what the cloud does with it is not modelled.
- `async`/`Promise`: the methods are sequential, and `deploy` cannot fail part-way because the recorder cannot fail.
- Logger calls are output only and are left out.
- `deployedAt` in `getTags` reads the wall clock, so it is left out of `GetTags`.
- `pulumi.Config`, `pulumi.getStack()` and the `ConfigurationManager` getters are not part of this model. They are given inputs: a key-to-string map, a stack string and the `Settings` values. Pulumi's namespacing of configuration keys is not modelled.
- `getServiceConfig().security` is taken to be present. Reading a property of an absent `security` object is not modelled.
- The logical names of the resources are not checked for uniqueness as cloud URNs. Two service-account definitions with the same name give two logged resources.
- The DNS manager and `src/storage/databases.ts` are not part of this model. `src/core/index.ts` and `src/core/types.ts` only re-export and declare types.
- There is no orchestrator, dependency ordering between managers or use of `options.dependencies`, because the source has none.
- NetworkingManager.FirstDeploy: states the field contents for a fresh manager only. A repeated deploy is covered by `Deploy`'s own postcondition: it overwrites map entries and appends to `firewalls`.
- ProjectParser.ProjectConfigParser.GetConfig: in the source it returns the stored `config` object itself, which callers share and can change. Such a change, for example filling `serviceAccounts`, would show in later `getConfig`, `getTags` and `getResourceName` calls on the singleton. The model's configuration is an immutable value, so this sharing is not modelled.
