/** The records the reconciliation engine reads from and writes to the
    appliance (the NITRO objects), the desired-state entries read from the
    YAML document, and the mutating client calls (`Op`) the engine issues. */
module NitroTypes {
  import opened Wrappers

  /** The six resource types the engine reconciles, one per section of an
      ns_group in the YAML document. */
  datatype Kind = ServerKind | ServiceGroupKind | LbvserverKind | CsvserverKind | CsActionKind | CsPolicyKind

  // ---------------------------------------------------------------------
  // Appliance objects, as returned by NSServer.get_all, NSLBVServer.get, ...

  /** NSServer: name, ipaddress and the two translation fields the engine
      clears when it moves a server to a new address. */
  datatype Server = Server(name: string, ipaddress: string, translationip: Option<string>,
                           translationmask: Option<string>)

  datatype ServiceGroup = ServiceGroup(name: string, servicetype: string)

  /** NSLBVServer and NSCSVServer share these four fields. */
  datatype Vserver = Vserver(name: string, ipv46: string, port: int, servicetype: string)

  datatype CsAction = CsAction(name: string, targetlbvserver: string)

  /** A content-switching policy; `action` may be missing from the options the
      appliance returns, and `cspolicytype` is assigned by the appliance. */
  datatype CsPolicy = CsPolicy(name: string, rule: string, action: Option<string>, cspolicytype: string)

  /** servicegroup_servicegroupmember_binding: one member of a service group. */
  datatype Member = Member(servername: string, port: int)

  /** csvserver_cspolicy_binding. */
  datatype PolicyBinding = PolicyBinding(policyname: string, priority: int)

  /** The policy type under which the engine keeps and updates a policy. */
  const AdvancedPolicy: string := "Advanced Policy"

  // ---------------------------------------------------------------------
  // Desired state, one entry of a YAML section

  datatype ServerConf = ServerConf(name: string, ipAddress: string)

  /** One `servers` entry of a service group. `bound` is the transient marker
      key the reconciler writes into the entry while it matches bindings. */
  datatype MemberEntry = MemberEntry(name: string, port: int, bound: bool)

  datatype ServiceGroupConf = ServiceGroupConf(name: string, protocol: string, servers: seq<MemberEntry>)

  /** The four fields an lbvserver and a csvserver entry have in common. */
  datatype VserverConf = VserverConf(name: string, vipAddress: string, port: int, protocol: string)

  datatype LbvserverConf = LbvserverConf(vserver: VserverConf, serviceGroupBindings: seq<string>)

  /** One `policy_bindings` entry of a csvserver; `existing` is the transient
      marker key the reconciler writes into it. */
  datatype PolicyEntry = PolicyEntry(name: string, priority: int, existing: bool)

  datatype CsvserverConf = CsvserverConf(vserver: VserverConf, defaultLbvserver: Option<string>,
                                         policyBindings: seq<PolicyEntry>)

  datatype CsActionConf = CsActionConf(name: string, targetLbvserver: string)

  datatype CsPolicyConf = CsPolicyConf(name: string, expression: string, action: string)

  // ---------------------------------------------------------------------
  // Mutating client calls

  /** One mutating call to the appliance. Vserver calls carry the kind
      (LbvserverKind or CsvserverKind) they address. */
  datatype Op =
    | Delete(kind: Kind, name: string)
    | AddServer(server: Server)
    | UpdateServer(server: Server)
    | RenameServer(oldName: string, newName: string)
    | AddServiceGroup(group: ServiceGroup)
    | AddMember(groupName: string, member: Member)
    | UpdateMember(groupName: string, member: Member)
    | DeleteMember(groupName: string, member: Member)
    | AddVserver(vkind: Kind, vserver: Vserver)
    | UpdateVserver(vkind: Kind, vserver: Vserver)
    | RenameVserver(vkind: Kind, oldName: string, newName: string)
    | BindServiceGroup(lbvserverName: string, groupName: string)
    | UnbindServiceGroup(lbvserverName: string, groupName: string)
    | AddDefaultLbvserver(csvserverName: string, lbvserverName: string)
    | UpdateDefaultLbvserver(csvserverName: string, lbvserverName: string)
    | DeleteDefaultLbvserver(csvserverName: string)
    | BindPolicy(csvserverName: string, binding: PolicyBinding)
    | UnbindPolicy(csvserverName: string, binding: PolicyBinding)
    | AddCsAction(action: CsAction)
    | UpdateCsAction(action: CsAction)
    | AddCsPolicy(policyName: string, rule: string, actionName: string)
    | UpdateCsPolicy(policyName: string, rule: string, actionName: string)

  /** The server a desired entry creates (NSServer.add with name and ip only). */
  function NewServer(c: ServerConf): Server {
    Server(c.name, c.ipAddress, None, None)
  }

  /** The vserver a desired entry creates: all four desired fields. */
  function NewVserver(c: VserverConf): Vserver {
    Vserver(c.name, c.vipAddress, c.port, c.protocol)
  }

  function ServerName(s: Server): string { s.name }
  function ServiceGroupName(g: ServiceGroup): string { g.name }
  function VserverName(v: Vserver): string { v.name }
  function CsActionName(a: CsAction): string { a.name }
  function CsPolicyName(p: CsPolicy): string { p.name }

  /** The member a desired `servers` entry stands for. */
  function EntryMember(e: MemberEntry): Member {
    Member(e.name, e.port)
  }

  /** The binding a desired `policy_bindings` entry stands for. */
  function EntryBinding(e: PolicyEntry): PolicyBinding {
    PolicyBinding(e.name, e.priority)
  }
}
