/**
 * `NetworkingManager`: one VPC, three subnets inside it and two firewall
 * rules on it. The manager keeps what it created in its `vpc`, `subnets`
 * and `firewalls` fields.
 */
module NetworkingManager {
  import opened Wrappers
  import opened Cloud
  import opened Settings
  import opened BaseManager
  import opened MapWrites
  import Cidr
  import Decimal

  /** The constructor's options: `protected` is set, so the stack does not matter. */
  const NetworkingManagerOptions := ServiceManagerOptions(
    "networking-manager", "Manages VPC, subnets, and networking components", None, Some(true))

  /** The subnet table of deploy, in its insertion (and iteration) order. */
  const SubnetConfig: seq<(string, string)> := [
    ("app", "10.0.1.0/24"),
    ("data", "10.0.2.0/24"),
    ("api", "10.0.3.0/24")
  ]

  /** One entry of deploy's firewall table; an absent `icmp` reads as false. */
  datatype FirewallRule = FirewallRule(
    name: string,
    ranges: seq<string>,
    tcp: seq<string>,
    udp: Option<seq<string>>,
    icmp: bool)

  const FirewallRules: seq<FirewallRule> := [
    FirewallRule("allow-internal", ["10.0.0.0/8"], ["0-65535"], Some(["0-65535"]), true),
    FirewallRule("allow-https", ["0.0.0.0/0"], ["443"], None, false)
  ]

  /** The VPC deploy creates, with handle `id`. */
  function VpcResource(id: nat, projectId: string, base: BaseServiceManager): Resource
  {
    Resource(id, "main-vpc",
      Network(projectId, false, "Main VPC for ROAI platform", "REGIONAL", false),
      base.GetResourceOptions(None))
  }

  function SubnetResource(id: nat, vpc: Resource, entry: (string, string), projectId: string,
                          region: string, base: BaseServiceManager): Resource
  {
    Resource(id, entry.0 + "-subnet",
      Subnetwork(projectId, IdOf(vpc.id), entry.1, region, true),
      base.GetResourceOptions(Some([vpc])))
  }

  /** The `allows` list of a rule: tcp, then udp if the rule has it, then icmp if set. */
  function Allows(rule: FirewallRule): seq<Allow>
  {
    [Allow("tcp", Some(rule.tcp))]
    + (if rule.udp.Some? then [Allow("udp", Some(rule.udp.value))] else [])
    + (if rule.icmp then [Allow("icmp", None)] else [])
  }

  function FirewallResource(id: nat, vpc: Resource, rule: FirewallRule, projectId: string,
                            base: BaseServiceManager): Resource
  {
    Resource(id, rule.name + "-firewall",
      Firewall(projectId, NameOf(vpc.id), Allows(rule), rule.ranges),
      base.GetResourceOptions(Some([vpc])))
  }

  function SubnetPlan(start: nat, vpc: Resource, entries: seq<(string, string)>, projectId: string,
                      region: string, base: BaseServiceManager): (plan: seq<Resource>)
    ensures |plan| == |entries|
  {
    seq(|entries|, i requires 0 <= i < |entries| =>
      SubnetResource(start + i, vpc, entries[i], projectId, region, base))
  }

  function FirewallPlan(start: nat, vpc: Resource, rules: seq<FirewallRule>, projectId: string,
                        base: BaseServiceManager): (plan: seq<Resource>)
    ensures |plan| == |rules|
  {
    seq(|rules|, i requires 0 <= i < |rules| => FirewallResource(start + i, vpc, rules[i], projectId, base))
  }

  /** What deploy creates, handles from `start` on: the VPC, the subnets, the firewalls. */
  function NetworkPlan(start: nat, projectId: string, region: string, base: BaseServiceManager): (plan: seq<Resource>)
    ensures |plan| == 1 + |SubnetConfig| + |FirewallRules|
  {
    var vpc := VpcResource(start, projectId, base);
    [vpc]
    + SubnetPlan(start + 1, vpc, SubnetConfig, projectId, region, base)
    + FirewallPlan(start + 1 + |SubnetConfig|, vpc, FirewallRules, projectId, base)
  }

  function SubnetNames(entries: seq<(string, string)>): (names: seq<string>)
    ensures |names| == |entries|
  {
    seq(|entries|, i requires 0 <= i < |entries| => entries[i].0)
  }

  class NetworkingManager {
    const base: BaseServiceManager
    var vpc: Option<Resource>
    var subnets: map<string, Resource>
    var firewalls: seq<Resource>

    constructor (config: ConfigurationManager, stack: string)
      ensures base == BaseServiceManager(config, NetworkingManagerOptions, stack)
      ensures vpc == None && subnets == map[] && firewalls == []
    {
      base := BaseServiceManager(config, NetworkingManagerOptions, stack);
      vpc := None;
      subnets := map[];
      firewalls := [];
    }

    /** Networking configuration is always accepted. */
    predicate Validate()
      ensures Validate()
    {
      true
    }

    method Deploy(backend: Provisioner) returns (resources: seq<Resource>)
      modifies this, backend
      ensures resources == NetworkPlan(old(|backend.created|), base.config.current.projectId,
                                       base.config.project.primaryRegion, base)
      ensures backend.created == old(backend.created) + resources
      ensures vpc == Some(resources[0])
      ensures subnets == SetAll(old(subnets), SubnetNames(SubnetConfig), resources[1..1 + |SubnetConfig|])
      ensures firewalls == old(firewalls) + resources[1 + |SubnetConfig|..]
    {
      resources := [];
      var projectConfig := base.config.current;

      var network := backend.Create("main-vpc",
        Network(projectConfig.projectId, false, "Main VPC for ROAI platform", "REGIONAL", false),
        base.GetResourceOptions(None));
      vpc := Some(network);
      resources := resources + [network];

      var subnetResources := CreateSubnets(backend, network);
      resources := resources + subnetResources;

      var firewallResources := CreateFirewalls(backend, network);
      resources := resources + firewallResources;
      assert resources[1..1 + |SubnetConfig|] == subnetResources;
      assert resources[1 + |SubnetConfig|..] == firewallResources;
    }

    /** The subnet loop of deploy: one subnet per table entry, each recorded under its name. */
    method CreateSubnets(backend: Provisioner, network: Resource) returns (created: seq<Resource>)
      modifies this`subnets, backend
      ensures created == SubnetPlan(old(|backend.created|), network, SubnetConfig, base.config.current.projectId,
                                    base.config.project.primaryRegion, base)
      ensures backend.created == old(backend.created) + created
      ensures subnets == SetAll(old(subnets), SubnetNames(SubnetConfig), created)
    {
      ghost var start := |backend.created|;
      ghost var subnets0 := subnets;
      created := [];
      var projectConfig := base.config.current;
      var subnetConfig := SubnetConfig;
      var region := base.config.project.primaryRegion;
      for i := 0 to |subnetConfig|
        invariant |created| == i
        invariant forall k :: 0 <= k < i ==>
          created[k] == SubnetResource(start + k, network, subnetConfig[k], projectConfig.projectId, region, base)
        invariant subnets == SetAll(subnets0, SubnetNames(subnetConfig[..i]), created)
        invariant backend.created == old(backend.created) + created
      {
        var (name, cidr) := subnetConfig[i];
        var subnet := backend.Create(name + "-subnet",
          Subnetwork(projectConfig.projectId, IdOf(network.id), cidr, region, true),
          base.GetResourceOptions(Some([network])));
        SetAllSnoc(subnets0, SubnetNames(subnetConfig[..i]), created, name, subnet);
        assert SubnetNames(subnetConfig[..i + 1]) == SubnetNames(subnetConfig[..i]) + [name];
        subnets := subnets[name := subnet];
        created := created + [subnet];
      }
      assert subnetConfig[..|subnetConfig|] == subnetConfig;
    }

    /** The firewall loop of deploy: one firewall per rule, each appended to `firewalls`. */
    method CreateFirewalls(backend: Provisioner, network: Resource) returns (created: seq<Resource>)
      modifies this`firewalls, backend
      ensures created == FirewallPlan(old(|backend.created|), network, FirewallRules, base.config.current.projectId, base)
      ensures backend.created == old(backend.created) + created
      ensures firewalls == old(firewalls) + created
    {
      ghost var start := |backend.created|;
      ghost var firewalls0 := firewalls;
      created := [];
      var projectConfig := base.config.current;
      var firewallRules := FirewallRules;
      for i := 0 to |firewallRules|
        invariant |created| == i
        invariant forall k :: 0 <= k < i ==>
          created[k] == FirewallResource(start + k, network, firewallRules[k], projectConfig.projectId, base)
        invariant firewalls == firewalls0 + created
        invariant backend.created == old(backend.created) + created
      {
        var rule := firewallRules[i];
        var firewall := backend.Create(rule.name + "-firewall",
          Firewall(projectConfig.projectId, NameOf(network.id), Allows(rule), rule.ranges),
          base.GetResourceOptions(Some([network])));
        firewalls := firewalls + [firewall];
        created := created + [firewall];
      }
    }
  }

  /** The deployment order: the VPC, subnets app, data, api, then the two firewalls. */
  lemma NetworkPlanNames(start: nat, projectId: string, region: string, base: BaseServiceManager)
    ensures var plan := NetworkPlan(start, projectId, region, base);
      && |plan| == 6
      && plan[0].name == "main-vpc" && plan[0].spec.Network?
      && plan[1].name == "app-subnet" && plan[2].name == "data-subnet" && plan[3].name == "api-subnet"
      && plan[4].name == "allow-internal-firewall" && plan[5].name == "allow-https-firewall"
      && (forall k :: 1 <= k < 4 ==> plan[k].spec.Subnetwork?)
      && (forall k :: 4 <= k < 6 ==> plan[k].spec.Firewall?)
  {
  }

  /**
   * The VPC depends on nothing; every subnet and firewall depends on exactly
   * the VPC and refers to it; handles are consecutive from `start`.
   */
  lemma NetworkPlanEdges(start: nat, projectId: string, region: string, base: BaseServiceManager)
    ensures var plan := NetworkPlan(start, projectId, region, base);
      && plan[0].options.dependsOn == None
      && (forall k :: 1 <= k < |plan| ==> plan[k].options.dependsOn == Some([plan[0]]))
      && (forall k :: 1 <= k < 4 ==> plan[k].spec.network == IdOf(plan[0].id))
      && (forall k :: 4 <= k < |plan| ==> plan[k].spec.network == NameOf(plan[0].id))
      && (forall k :: 0 <= k < |plan| ==> plan[k].id == start + k)
  {
  }

  /** Each subnet is `<name>-subnet` in the configured region with its table CIDR. */
  lemma SubnetPlanEntries(start: nat, projectId: string, region: string, base: BaseServiceManager, i: nat)
    requires i < |SubnetConfig|
    ensures var subnet := NetworkPlan(start, projectId, region, base)[1 + i];
      && subnet.name == SubnetConfig[i].0 + "-subnet"
      && subnet.spec.region == region
      && subnet.spec.ipCidrRange == SubnetConfig[i].1
      && subnet.spec.project == projectId
      && subnet.spec.privateIpGoogleAccess
  {
  }

  /** A networking manager protects every resource it creates, on every stack. */
  lemma {:induction false} NetworkingAlwaysProtected(start: nat, projectId: string, region: string, base: BaseServiceManager)
    requires base.options == NetworkingManagerOptions
    ensures var plan := NetworkPlan(start, projectId, region, base);
      forall k :: 0 <= k < |plan| ==> plan[k].options.protect
  {
    var plan := NetworkPlan(start, projectId, region, base);
    forall k | 0 <= k < |plan|
      ensures plan[k].options.protect
    {
      assert plan[k].options == base.GetResourceOptions(plan[k].options.dependsOn);
    }
  }

  /** The allow list always starts with tcp; udp and icmp appear exactly when the rule asks. */
  lemma AllowsProtocols(rule: FirewallRule)
    ensures var allows := Allows(rule);
      && |allows| == 1 + (if rule.udp.Some? then 1 else 0) + (if rule.icmp then 1 else 0)
      && allows[0] == Allow("tcp", Some(rule.tcp))
      && ((exists a :: a in allows && a.protocol == "udp") <==> rule.udp.Some?)
      && ((exists a :: a in allows && a.protocol == "icmp") <==> rule.icmp)
  {
    var allows := Allows(rule);
    if rule.udp.Some? {
      assert allows[1].protocol == "udp";
    }
    if rule.icmp {
      assert allows[|allows| - 1].protocol == "icmp";
    }
  }

  /** So `allow-internal` opens tcp, udp and icmp, and `allow-https` only tcp port 443. */
  lemma FirewallAllowLists()
    ensures Allows(FirewallRules[0]) ==
      [Allow("tcp", Some(["0-65535"])), Allow("udp", Some(["0-65535"])), Allow("icmp", None)]
    ensures Allows(FirewallRules[1]) == [Allow("tcp", Some(["443"]))]
  {
  }

  /**
   * Each deployed firewall is `<rule>-firewall` on the VPC's name, with the
   * rule's allow list and source ranges.
   */
  lemma FirewallPlanEntries(start: nat, projectId: string, region: string, base: BaseServiceManager, i: nat)
    requires i < |FirewallRules|
    ensures var firewall := NetworkPlan(start, projectId, region, base)[1 + |SubnetConfig| + i];
      && firewall.name == FirewallRules[i].name + "-firewall"
      && firewall.spec == Firewall(projectId, NameOf(start), Allows(FirewallRules[i]), FirewallRules[i].ranges)
  {
  }

  /**
   * The deployed allow-internal firewall opens tcp, udp and icmp (three
   * entries) from 10.0.0.0/8; the deployed allow-https firewall opens only
   * tcp port 443 (one entry) from anywhere.
   */
  lemma {:induction false} DeployedFirewalls(start: nat, projectId: string, region: string, base: BaseServiceManager)
    ensures var plan := NetworkPlan(start, projectId, region, base);
      && plan[4].spec.allows ==
           [Allow("tcp", Some(["0-65535"])), Allow("udp", Some(["0-65535"])), Allow("icmp", None)]
      && |plan[4].spec.allows| == 3
      && plan[4].spec.sourceRanges == ["10.0.0.0/8"]
      && plan[5].spec.allows == [Allow("tcp", Some(["443"]))]
      && |plan[5].spec.allows| == 1
      && plan[5].spec.sourceRanges == ["0.0.0.0/0"]
  {
    FirewallAllowLists();
    FirewallPlanEntries(start, projectId, region, base, 0);
    FirewallPlanEntries(start, projectId, region, base, 1);
  }

  /** Setting app, data, api in turn on an empty map gives exactly those three entries. */
  lemma {:induction false} SubnetWritesFromEmpty(written: seq<Resource>)
    requires |written| == |SubnetConfig|
    ensures SetAll(map[], SubnetNames(SubnetConfig), written) ==
      map["app" := written[0], "data" := written[1], "api" := written[2]]
  {
    var names := SubnetNames(SubnetConfig);
    assert names == ["app", "data", "api"];
    assert SetAll(map[], names[..1], written[..1]) == map["app" := written[0]] by {
      assert names[..1][..0] == [] && written[..1][..0] == [];
    }
    assert SetAll(map[], names[..2], written[..2]) == map["app" := written[0], "data" := written[1]] by {
      assert names[..2][..1] == names[..1] && written[..2][..1] == written[..1];
    }
    assert names[..3][..2] == names[..2] && written[..3][..2] == written[..2];
    assert names[..3] == names && written[..3] == written;
  }

  /**
   * A fresh manager deployed once: `vpc` is the network, `subnets` maps
   * app, data and api to the three subnets, and `firewalls` holds the two
   * firewalls in rule order.
   */
  method FirstDeploy(config: ConfigurationManager, stack: string)
    returns (m: NetworkingManager, resources: seq<Resource>)
    ensures |resources| == 6
    ensures resources == NetworkPlan(0, config.current.projectId, config.project.primaryRegion,
                                     BaseServiceManager(config, NetworkingManagerOptions, stack))
    ensures m.vpc == Some(resources[0])
    ensures m.subnets == map["app" := resources[1], "data" := resources[2], "api" := resources[3]]
    ensures m.firewalls == [resources[4], resources[5]]
  {
    var backend := new Provisioner();
    m := new NetworkingManager(config, stack);
    resources := m.Deploy(backend);
    SubnetWritesFromEmpty(resources[1..1 + |SubnetConfig|]);
  }

  /** The subnet CIDRs and the internal firewall range, as address blocks. */
  const SubnetBlocks: seq<Cidr.Block> := [
    Cidr.Block(10, 0, 1, 0, 24),
    Cidr.Block(10, 0, 2, 0, 24),
    Cidr.Block(10, 0, 3, 0, 24)
  ]

  const InternalRange := Cidr.Block(10, 0, 0, 0, 8)

  /** The blocks are exactly the ones the table and the firewall rule write. */
  lemma BlocksMatchConfig()
    ensures |SubnetBlocks| == |SubnetConfig|
    ensures forall i :: 0 <= i < |SubnetBlocks| ==> Cidr.Text(SubnetBlocks[i]) == SubnetConfig[i].1
    ensures [Cidr.Text(InternalRange)] == FirewallRules[0].ranges
  {
    assert Decimal.Digits(0) == "0" && Decimal.Digits(1) == "1" && Decimal.Digits(2) == "2";
    assert Decimal.Digits(3) == "3" && Decimal.Digits(8) == "8";
    assert Decimal.Digits(10) == "10" && Decimal.Digits(24) == "24";
    assert Cidr.Text(SubnetBlocks[0]) == SubnetConfig[0].1;
    assert Cidr.Text(SubnetBlocks[1]) == SubnetConfig[1].1;
    assert Cidr.Text(SubnetBlocks[2]) == SubnetConfig[2].1;
    assert Cidr.Text(InternalRange) == "10.0.0.0/8";
  }

  /**
   * The CIDR of every deployed subnet is the text of a block that lies inside
   * the block the deployed allow-internal firewall names as its source range.
   */
  lemma {:induction false} DeployedSubnetsInsideInternalRange(start: nat, projectId: string, region: string,
                                                              base: BaseServiceManager)
    ensures var plan := NetworkPlan(start, projectId, region, base);
      && plan[4].spec.sourceRanges == [Cidr.Text(InternalRange)]
      && forall i :: 0 <= i < |SubnetBlocks| ==>
           plan[1 + i].spec.ipCidrRange == Cidr.Text(SubnetBlocks[i]) &&
           Cidr.Within(SubnetBlocks[i], InternalRange)
  {
    var plan := NetworkPlan(start, projectId, region, base);
    BlocksMatchConfig();
    SubnetBlocksDisjointAndInternal();
    FirewallPlanEntries(start, projectId, region, base, 0);
    forall i | 0 <= i < |SubnetBlocks|
      ensures plan[1 + i].spec.ipCidrRange == Cidr.Text(SubnetBlocks[i])
    {
      SubnetPlanEntries(start, projectId, region, base, i);
    }
  }

  /**
   * The subnet blocks are well formed, pairwise disjoint, and each lies inside
   * the `10.0.0.0/8` range that `allow-internal` admits traffic from.
   */
  lemma {:induction false} SubnetBlocksDisjointAndInternal()
    ensures Cidr.WellFormed(InternalRange)
    ensures forall i :: 0 <= i < |SubnetBlocks| ==> Cidr.WellFormed(SubnetBlocks[i])
    ensures forall i, j :: 0 <= i < j < |SubnetBlocks| ==> Cidr.Disjoint(SubnetBlocks[i], SubnetBlocks[j])
    ensures forall i :: 0 <= i < |SubnetBlocks| ==> Cidr.Within(SubnetBlocks[i], InternalRange)
  {
    assert Cidr.Pow2(24) == 16777216 by {
      assert Cidr.Pow2(8) == 256;
      Cidr.Pow2Add(8, 8);
      Cidr.Pow2Add(16, 8);
    }
    forall i | 0 <= i < |SubnetBlocks|
      ensures Cidr.WellFormed(SubnetBlocks[i]) && Cidr.Within(SubnetBlocks[i], InternalRange)
    {
      assert Cidr.Size(SubnetBlocks[i]) == 256;
      Cidr.WithinByRange(SubnetBlocks[i], InternalRange);
    }
    forall i, j | 0 <= i < j < |SubnetBlocks|
      ensures Cidr.Disjoint(SubnetBlocks[i], SubnetBlocks[j])
    {
      Cidr.SameLengthBlocksDisjoint(SubnetBlocks[i], SubnetBlocks[j]);
    }
  }
}
