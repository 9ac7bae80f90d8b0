/**
 * The part of the Pulumi GCP SDK that the service managers call. The SDK's
 * resource constructors are foreign code, so each one is modelled as a
 * recorder step: it appends a descriptor (logical name, resource kind with
 * the arguments the manager passed, resource options) to the provisioner's
 * log and hands back the new resource, whose handle is its position in the log.
 */
module Cloud {
  import opened Wrappers

  /** `pulumi.ResourceOptions` as the managers fill it in. */
  datatype ResourceOptions = ResourceOptions(
    protect: bool,
    dependsOn: Option<seq<Resource>>,
    tags: map<string, string>)

  /** An output property of an earlier resource, such as `vpc.id` or `vpc.name`. */
  datatype Output = IdOf(handle: nat) | NameOf(handle: nat)

  /** One entry of a firewall's `allows` list; icmp entries carry no ports. */
  datatype Allow = Allow(protocol: string, ports: Option<seq<string>>)

  /** The kind of a resource together with the constructor arguments the managers pass. */
  datatype Spec =
    | ProjectService(project: string, service: string, disableOnDestroy: bool)
    | Network(project: string, autoCreateSubnetworks: bool, description: string,
              routingMode: string, deleteDefaultRoutesOnCreate: bool)
    | Subnetwork(project: string, network: Output, ipCidrRange: string, region: string,
                 privateIpGoogleAccess: bool)
    | Firewall(project: string, network: Output, allows: seq<Allow>, sourceRanges: seq<string>)
    | ServiceAccount(accountId: string, displayName: string, description: string, project: string)
    | KeyRing(name: string, location: string, project: string)
    | CryptoKey(name: string, keyRing: Output, rotationPeriod: string, purpose: string)

  /** A resource as created: handle, logical name, kind and arguments, options. */
  datatype Resource = Resource(id: nat, name: string, spec: Spec, options: ResourceOptions)

  /** The provisioning backend: the log of every resource created so far, in order. */
  class Provisioner {
    var created: seq<Resource>

    constructor ()
      ensures created == []
    {
      created := [];
    }

    /** `new <Kind>(name, args, options)`: records the resource and returns it. */
    method Create(name: string, spec: Spec, options: ResourceOptions) returns (r: Resource)
      modifies this
      ensures r == Resource(old(|created|), name, spec, options)
      ensures created == old(created) + [r]
    {
      r := Resource(|created|, name, spec, options);
      created := created + [r];
    }
  }
}
