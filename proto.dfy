/**
 * The messages of the policy-sync protocol, as far as the store looks into them.
 * Fields that are Go pointers, and may therefore be nil, are Options.
 */
module Proto {
  import opened Wrappers

  /** Key of a policy: its tier and its name. */
  datatype PolicyID = PolicyID(tier: string, name: string)

  /** Key of a profile: its name. */
  datatype ProfileID = ProfileID(name: string)

  /** Identity of the local workload endpoint. */
  datatype WorkloadEndpointID = WorkloadEndpointID(orchestratorId: string, workloadId: string, endpointId: string)

  /** Policy, profile and endpoint bodies are stored and replaced wholesale, never looked into:
      they are kept here as their encoded form. */
  datatype Policy = Policy(encoded: seq<bv8>)
  datatype Profile = Profile(encoded: seq<bv8>)
  datatype WorkloadEndpoint = WorkloadEndpoint(encoded: seq<bv8>)

  /** The type tag of an IP set, as the numeric value of the protocol's enumeration.
      Only the IP-set implementation interprets it. */
  datatype IPSetType = IPSetType(code: int)

  datatype InSync = InSync
  datatype IPSetUpdate = IPSetUpdate(id: string, kind: IPSetType, members: seq<string>)
  datatype IPSetDeltaUpdate = IPSetDeltaUpdate(id: string, addedMembers: seq<string>, removedMembers: seq<string>)
  datatype IPSetRemove = IPSetRemove(id: string)
  datatype ActiveProfileUpdate = ActiveProfileUpdate(id: Option<ProfileID>, profile: Option<Profile>)
  datatype ActiveProfileRemove = ActiveProfileRemove(id: Option<ProfileID>)
  datatype ActivePolicyUpdate = ActivePolicyUpdate(id: Option<PolicyID>, policy: Option<Policy>)
  datatype ActivePolicyRemove = ActivePolicyRemove(id: Option<PolicyID>)
  datatype WorkloadEndpointUpdate = WorkloadEndpointUpdate(id: Option<WorkloadEndpointID>, endpoint: Option<WorkloadEndpoint>)
  datatype WorkloadEndpointRemove = WorkloadEndpointRemove(id: Option<WorkloadEndpointID>)

  /** The one-of payload of a message. NoPayload stands for a nil payload or a variant this
      version does not know: the dispatcher matches none of its cases. */
  datatype Payload =
    | InSyncPayload(inSync: InSync)
    | IpsetUpdatePayload(ipsetUpdate: IPSetUpdate)
    | IpsetDeltaUpdatePayload(ipsetDeltaUpdate: IPSetDeltaUpdate)
    | IpsetRemovePayload(ipsetRemove: IPSetRemove)
    | ActiveProfileUpdatePayload(activeProfileUpdate: ActiveProfileUpdate)
    | ActiveProfileRemovePayload(activeProfileRemove: ActiveProfileRemove)
    | ActivePolicyUpdatePayload(activePolicyUpdate: ActivePolicyUpdate)
    | ActivePolicyRemovePayload(activePolicyRemove: ActivePolicyRemove)
    | WorkloadEndpointUpdatePayload(workloadEndpointUpdate: WorkloadEndpointUpdate)
    | WorkloadEndpointRemovePayload(workloadEndpointRemove: WorkloadEndpointRemove)
    | NoPayload

  /** One message of the server stream. */
  datatype ToDataplane = ToDataplane(payload: Payload)
}
