/**
 * `SecurityManager`: one service account per configured definition, then a
 * KMS key ring and an encryption key inside it. The manager keeps the
 * accounts in its `serviceAccounts` map, keyed by definition name.
 */
module SecurityManager {
  import opened Wrappers
  import opened Cloud
  import opened Settings
  import opened BaseManager
  import opened MapWrites
  import Decimal

  /** The constructor's options: `protected` is set, so the stack does not matter. */
  const SecurityManagerOptions := ServiceManagerOptions(
    "security-manager", "Manages security configurations, service accounts, and IAM", None, Some(true))

  const RotationPeriod := "7776000s"
  const Purpose := "ENCRYPT_DECRYPT"

  /** What deploy throws when `service_accounts` is unset: `for..of` over `undefined`. */
  datatype DeployError = ServiceAccountsNotIterable

  function AccountResource(id: nat, sa: AccountDefinition, projectId: string, base: BaseServiceManager): Resource
  {
    Resource(id, sa.name + "-sa",
      ServiceAccount(sa.name + "-sa", sa.name, sa.description, projectId),
      base.GetResourceOptions(None))
  }

  function KeyRingResource(id: nat, region: string, projectId: string, base: BaseServiceManager): Resource
  {
    Resource(id, "main-keyring", KeyRing("main-keyring", region, projectId), base.GetResourceOptions(None))
  }

  function CryptoKeyResource(id: nat, keyRing: Resource, base: BaseServiceManager): Resource
  {
    Resource(id, "encryption-key",
      CryptoKey("encryption-key", IdOf(keyRing.id), RotationPeriod, Purpose),
      base.GetResourceOptions(Some([keyRing])))
  }

  function AccountPlan(start: nat, accounts: seq<AccountDefinition>, projectId: string,
                       base: BaseServiceManager): (plan: seq<Resource>)
    ensures |plan| == |accounts|
  {
    seq(|accounts|, i requires 0 <= i < |accounts| => AccountResource(start + i, accounts[i], projectId, base))
  }

  /** What deploy creates, handles from `start` on: the accounts in order, the key ring, the key. */
  function SecurityPlan(start: nat, accounts: seq<AccountDefinition>, projectId: string, region: string,
                        base: BaseServiceManager): (plan: seq<Resource>)
    ensures |plan| == |accounts| + 2
  {
    var keyRing := KeyRingResource(start + |accounts|, region, projectId, base);
    AccountPlan(start, accounts, projectId, base)
    + [keyRing, CryptoKeyResource(start + |accounts| + 1, keyRing, base)]
  }

  function AccountNames(accounts: seq<AccountDefinition>): (names: seq<string>)
    ensures |names| == |accounts|
  {
    seq(|accounts|, i requires 0 <= i < |accounts| => accounts[i].name)
  }

  class SecurityManager {
    const base: BaseServiceManager
    var serviceAccounts: map<string, Resource>

    constructor (config: ConfigurationManager, stack: string)
      ensures base == BaseServiceManager(config, SecurityManagerOptions, stack)
      ensures serviceAccounts == map[]
    {
      base := BaseServiceManager(config, SecurityManagerOptions, stack);
      serviceAccounts := map[];
    }

    /** Rejected only when `service_accounts` is unset; an empty list is accepted. */
    predicate Validate()
      ensures Validate() <==> base.config.security.serviceAccounts.Some?
    {
      var securityConfig := base.config.security;
      !securityConfig.serviceAccounts.None?
    }

    method Deploy(backend: Provisioner) returns (result: Result<seq<Resource>, DeployError>)
      modifies this, backend
      ensures result.Failure? <==> !Validate()
      ensures result.Failure? ==>
        backend.created == old(backend.created) && serviceAccounts == old(serviceAccounts)
      ensures result.Success? ==>
        var accounts := base.config.security.serviceAccounts.value;
        && result.value == SecurityPlan(old(|backend.created|), accounts, base.config.current.projectId,
                                        base.config.project.primaryRegion, base)
        && backend.created == old(backend.created) + result.value
        && serviceAccounts == SetAll(old(serviceAccounts), AccountNames(accounts), result.value[..|accounts|])
    {
      var projectConfig := base.config.current;
      var securityConfig := base.config.security;
      if securityConfig.serviceAccounts.None? {
        return Failure(ServiceAccountsNotIterable);
      }
      var accounts := securityConfig.serviceAccounts.value;
      var resources := CreateServiceAccounts(backend, accounts);
      ghost var created := resources;

      var region := base.config.project.primaryRegion;
      var keyRing := backend.Create("main-keyring",
        KeyRing("main-keyring", region, projectConfig.projectId), base.GetResourceOptions(None));
      resources := resources + [keyRing];

      var encryptionKey := backend.Create("encryption-key",
        CryptoKey("encryption-key", IdOf(keyRing.id), RotationPeriod, Purpose),
        base.GetResourceOptions(Some([keyRing])));
      resources := resources + [encryptionKey];

      assert resources[..|accounts|] == created;
      return Success(resources);
    }

    /** The account loop of deploy: one account per definition, each recorded under its name. */
    method CreateServiceAccounts(backend: Provisioner, accounts: seq<AccountDefinition>) returns (created: seq<Resource>)
      modifies this`serviceAccounts, backend
      ensures created == AccountPlan(old(|backend.created|), accounts, base.config.current.projectId, base)
      ensures backend.created == old(backend.created) + created
      ensures serviceAccounts == SetAll(old(serviceAccounts), AccountNames(accounts), created)
    {
      ghost var start := |backend.created|;
      ghost var accounts0 := serviceAccounts;
      created := [];
      var projectConfig := base.config.current;
      for i := 0 to |accounts|
        invariant |created| == i
        invariant forall k :: 0 <= k < i ==>
          created[k] == AccountResource(start + k, accounts[k], projectConfig.projectId, base)
        invariant serviceAccounts == SetAll(accounts0, AccountNames(accounts[..i]), created)
        invariant backend.created == old(backend.created) + created
      {
        var sa := accounts[i];
        var serviceAccount := backend.Create(sa.name + "-sa",
          ServiceAccount(sa.name + "-sa", sa.name, sa.description, projectConfig.projectId),
          base.GetResourceOptions(None));
        SetAllSnoc(accounts0, AccountNames(accounts[..i]), created, sa.name, serviceAccount);
        assert AccountNames(accounts[..i + 1]) == AccountNames(accounts[..i]) + [sa.name];
        serviceAccounts := serviceAccounts[sa.name := serviceAccount];
        created := created + [serviceAccount];
      }
      assert accounts[..|accounts|] == accounts;
    }
  }

  /** Account `i` is `<name>-sa`, displayed by its name, with the configured description. */
  lemma AccountEntries(start: nat, accounts: seq<AccountDefinition>, projectId: string, region: string,
                       base: BaseServiceManager, i: nat)
    requires i < |accounts|
    ensures var account := SecurityPlan(start, accounts, projectId, region, base)[i];
      && account.name == accounts[i].name + "-sa"
      && account.spec == ServiceAccount(accounts[i].name + "-sa", accounts[i].name, accounts[i].description, projectId)
      && account.options.dependsOn == None
  {
  }

  /**
   * The last two resources are the key ring in the primary region, which
   * depends on nothing, and the encryption key, which lives in the key ring,
   * depends on exactly it, rotates every `RotationPeriod` (90 days, see
   * `RotationIsNinetyDays`) and is for encryption and decryption.
   */
  lemma KeyRingAndKey(start: nat, accounts: seq<AccountDefinition>, projectId: string, region: string,
                      base: BaseServiceManager)
    ensures var plan := SecurityPlan(start, accounts, projectId, region, base);
      var keyRing, key := plan[|accounts|], plan[|accounts| + 1];
      && keyRing.name == "main-keyring" && keyRing.spec == KeyRing("main-keyring", region, projectId)
      && keyRing.options.dependsOn == None
      && key.name == "encryption-key"
      && key.spec == CryptoKey("encryption-key", IdOf(keyRing.id), RotationPeriod, Purpose)
      && key.spec.rotationPeriod == "7776000s" && key.spec.purpose == "ENCRYPT_DECRYPT"
      && key.options.dependsOn == Some([keyRing])
  {
  }

  /** The rotation period is 90 days written in seconds. */
  lemma {:induction false} RotationIsNinetyDays()
    ensures RotationPeriod[|RotationPeriod| - 1] == 's'
    ensures var digits := RotationPeriod[..|RotationPeriod| - 1];
      (forall i :: 0 <= i < |digits| ==> '0' <= digits[i] <= '9') &&
      Decimal.Value(digits) == 90 * 86400
  {
    assert RotationPeriod[..|RotationPeriod| - 1] == Decimal.Digits(90 * 86400);
    Decimal.ValueOfDigits(90 * 86400);
  }

  /** A security manager protects every resource it creates, on every stack. */
  lemma {:induction false} SecurityAlwaysProtected(start: nat, accounts: seq<AccountDefinition>, projectId: string,
                                                  region: string, base: BaseServiceManager)
    requires base.options == SecurityManagerOptions
    ensures var plan := SecurityPlan(start, accounts, projectId, region, base);
      forall k :: 0 <= k < |plan| ==> plan[k].options.protect
  {
    var plan := SecurityPlan(start, accounts, projectId, region, base);
    forall k | 0 <= k < |plan|
      ensures plan[k].options.protect
    {
      assert plan[k].options == base.GetResourceOptions(plan[k].options.dependsOn);
    }
  }

  /** The accounts part of the plan, which is what the `serviceAccounts` map is written from. */
  lemma SecurityPlanAccounts(start: nat, accounts: seq<AccountDefinition>, projectId: string, region: string,
                             base: BaseServiceManager)
    ensures SecurityPlan(start, accounts, projectId, region, base)[..|accounts|] ==
      AccountPlan(start, accounts, projectId, base)
  {
  }

  /**
   * After deploy, `serviceAccounts` maps each configured name to the account
   * created for its last definition.
   */
  lemma {:induction false} RegisteredAccount(m: map<string, Resource>, start: nat, accounts: seq<AccountDefinition>,
                                             projectId: string, base: BaseServiceManager, i: nat)
    requires i < |accounts|
    requires forall j :: i < j < |accounts| ==> accounts[j].name != accounts[i].name
    ensures var registered := SetAll(m, AccountNames(accounts), AccountPlan(start, accounts, projectId, base));
      accounts[i].name in registered &&
      registered[accounts[i].name] == AccountResource(start + i, accounts[i], projectId, base)
  {
    var names := AccountNames(accounts);
    assert LastIndexOf(names, accounts[i].name, i);
    SetAllLastWriteWins(m, names, AccountPlan(start, accounts, projectId, base), accounts[i].name, i);
  }

  /** Two definitions with the same name: both accounts are created, the map keeps the later one. */
  lemma {:induction false} DuplicateNameKeepsBoth(m: map<string, Resource>, start: nat, accounts: seq<AccountDefinition>,
                                                  projectId: string, base: BaseServiceManager, i: nat, j: nat)
    requires i < j < |accounts| && accounts[i].name == accounts[j].name
    requires forall k :: j < k < |accounts| ==> accounts[k].name != accounts[j].name
    ensures var plan := AccountPlan(start, accounts, projectId, base);
      var registered := SetAll(m, AccountNames(accounts), plan);
      && plan[i] != plan[j]
      && plan[i].spec.accountId == plan[j].spec.accountId
      && accounts[i].name in registered
      && registered[accounts[i].name] == plan[j]
  {
    RegisteredAccount(m, start, accounts, projectId, base, j);
  }
}
