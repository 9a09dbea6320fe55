# NetScaler state reconciliation, modelled in Dafny

The program reads a YAML document of `ns_groups`. Each group names one
NetScaler appliance and declares its desired servers, service groups,
load-balancing vservers (lbvservers), content-switching vservers
(csvservers), content-switching actions and content-switching policies.
For each section type the program has a reconciler pair:

- `ensure_<type>_state` brings one declared entry in line with what the
  appliance holds. It lists or fetches by name, picks a branch, and makes
  the mutating NITRO calls that branch needs.
- `ensure_<type>s_state` runs that entry reconciler for every entry. It
  then deletes every object of that type that no entry names. An absent
  section declares nothing, so every object of the type is deleted.

`main` connects to each group's appliance and runs six passes over the six
section types, so that dependencies between objects settle. The earlier
revision, `applyNetscalerState.py`, differs in several ways:

- a server that matches only by address is renamed;
- member bindings are matched by server name and updated in place;
- the service group collection lists the groups before the entries run;
- `main` makes one pass over three sections.

Its lbvserver reconciler (`applyNetscalerState.py:248-431`) makes the same calls as the later one once a section is present, so the model reuses `Lbvservers.EnsureLbvserversState` for it.

## How the model is built

- **The appliance.** `ApplianceModel.Appliance` is a class.
  - `config` holds per-type maps from name to record, plus the binding
    lists.
  - `trace` records every mutating call made, in order.
  - Whether a call raises `NSNitroError` comes from a fixed set of trace
    positions (`fails`). Whether a fallible read raises (a binding fetch, or
    the listing of all policies) comes from a set of read numbers
    (`fetchFails`).
  - `Valid()` says that the configuration is the initial one with every
    accepted call applied (`Replay`).
- **The reconcilers.** Every reconciler is a method on an `Appliance`. Its
  `ensures` ties the new trace to a function of the old configuration and
  the inputs (`ServerPlan`, `GroupOps`, `MemberOps`, `LbBindingOps`,
  `PolicyOps`, and so on). Its `ok` result says exactly which calls had to
  be accepted.
- **What the calls achieve.** Lemmas about those functions state it. For
  example, when every call is accepted the declared object exists as
  declared and unrelated objects are left alone. They also state how the
  calls are shaped: which calls are made, exactly when, and what a second
  run does.
- **The matcher.** `matches_found` is a datatype with three optional
  buckets. The match loop is `Matcher.FindMatches`.
- **Groups on shared appliances.** Both versions of `main` reconcile the
  groups one after the other, each on its `ns_instance`, and two groups may
  name the same instance. `ApplianceRuns` records each group's run as a
  `Span` (trace and fetch count at its start and end). A run starts where
  the last earlier run on the same appliance ended (`LastUse`), and every
  appliance ends where the last run on it ended.
- **Listings.** A listing (`get_all`) comes in an order the appliance
  chooses. It is a ghost out-parameter constrained by `Lists`.
- **The desired entries.** The `bound` and `existing` marker keys that the
  reconcilers write into them are boolean fields. Methods that leave
  markers behind return the entries as they leave them.

## Model

| member | source | states |
|---|---|---|
| Matcher.FindMatches | apply_netscaler_state.py:225-233 | the match loop's dictionary is MatchesFound, the last object of each bucket overwriting earlier ones |
| Matcher.Put | apply_netscaler_state.py:227-233 | `matches_found[b] = x` sets bucket b to x and leaves the other buckets unchanged |
| Matcher.LaterMatchWins | apply_netscaler_state.py:225-233 | the object left in a bucket is the last listed object that belongs to that bucket |
| Matcher.SlotContents | apply_netscaler_state.py:225-233 | a bucket is empty exactly when no listed object belongs to it; what it holds is a listed object of that bucket |
| Matcher.ServerSlots | apply_netscaler_state.py:227-233 | the server buckets: full match on name and ip, name only, address only, each empty exactly when no listed server qualifies |
| Matcher.ServerSlotValues | apply_netscaler_state.py:227-233 | whatever the server buckets hold is a listed server with the bucket's name and address relation |
| Matcher.NoVserverFullMatch | apply_netscaler_state.py:540-545 | the vserver full-match test compares an uncalled getter with a value, so the full bucket stays empty for every listing |
| Matcher.VserverNameSlot | apply_netscaler_state.py:1146-1151 | the vserver name bucket is empty exactly when no listed vserver has the name; the address bucket holds another-named vserver at the desired address |
| ApplianceModel.Get | apply_netscaler_state.py:325-331 | a get by name raises (None) exactly when there is no object of that name, and otherwise returns that object |
| ApplianceModel.WithoutContents | apply_netscaler_state.py:370 | after deleting a binding the list holds exactly the other bindings |
| ApplianceModel.WithoutPolicyContents | apply_netscaler_state.py:1276-1279 | unbinding a policy removes every binding of that policy name and keeps all others |
| ApplianceModel.ApplyKeepsWellKeyed | apply_netscaler_state.py:242-279 | every accepted NITRO call keeps each object stored under its own name |
| ApplianceModel.ReplayAccepted | apply_netscaler_state.py:241-245 | a stretch of calls that are all accepted has the effect of applying them in order |
| ApplianceModel.Enumerate | apply_netscaler_state.py:225 | a get_all lists every object exactly once, in some order |
| ApplianceModel.Appliance.Invoke | apply_netscaler_state.py:241-245 | a mutating call is recorded; it takes effect, and the result stays true, exactly when it does not raise NSNitroError |
| ApplianceModel.Appliance.InvokeIn | apply_netscaler_state.py:369-373 | a call inside a reconciler loop extends the run's calls, and its `ret` stays true only if every call so far was accepted |
| ApplianceModel.Appliance.ListNames | apply_netscaler_state.py:454-463 | the listing a collection reads names every object of the type exactly once |
| ApplianceModel.Appliance.ListServers | apply_netscaler_state.py:225 | NSServer.get_all lists every server once |
| ApplianceModel.Appliance.ListServiceGroups | apply_netscaler_state.py:413 | NSServiceGroup.get_all lists every service group once |
| ApplianceModel.Appliance.ListVservers | apply_netscaler_state.py:537 | NSLBVServer.get_all and NSCSVServer.get_all list every vserver of their type once |
| ApplianceModel.Appliance.ListCsActions | apply_netscaler_state.py:805-823 | get_all_cs_actions lists every action once |
| ApplianceModel.Appliance.ListCsPolicies | apply_netscaler_state.py:885-888 | NSCSPolicy().get_all raises (None) exactly when that read fails, and otherwise lists every policy once |
| ApplianceModel.Appliance.GetServiceGroup | apply_netscaler_state.py:325-331 | NSServiceGroup.get by name returns the group, or raises when there is none |
| ApplianceModel.Appliance.GetVserver | apply_netscaler_state.py:605-612 | NSLBVServer.get and NSCSVServer.get by name return the vserver, or raise when there is none |
| ApplianceModel.Appliance.GetCsAction | apply_netscaler_state.py:715-735 | get_cs_action returns the action of that name, or None |
| ApplianceModel.Appliance.GetCsPolicy | apply_netscaler_state.py:942-950 | NSCSPolicy.get by name returns the policy, or raises when there is none |
| ApplianceModel.Appliance.GetDefaultLbvserver | apply_netscaler_state.py:1033-1053 | get_csvserver_lbvserver_binding returns the default lbvserver edge, or None when there is none |
| ApplianceModel.Appliance.FetchMembers | apply_netscaler_state.py:354 | the member binding fetch returns the group's members, or None when the read fails or the group is missing |
| ApplianceModel.Appliance.FetchServiceGroupBindings | apply_netscaler_state.py:649-655 | the lbvserver binding fetch returns the bound service groups, or None when the read fails or the lbvserver is missing |
| ApplianceModel.Appliance.FetchPolicyBindings | apply_netscaler_state.py:1260-1266 | the csvserver policy binding fetch returns the bound policies, or None when the read fails or the csvserver is missing |
| Collect.Undeclared | apply_netscaler_state.py:454-463 | the removal list holds exactly the listed names that no entry declares, and all of them when the section is absent |
| Collect.UndeclaredDistinct | apply_netscaler_state.py:454-463 | a listing without repeats gives a removal list without repeats |
| Collect.DeletesRemove | apply_netscaler_state.py:465-470 | the deletes remove exactly the named objects of that type and no object of another type |
| Collect.DeleteRemoves | apply_netscaler_state.py:467 | one delete removes that object of its type and nothing else |
| Collect.CollectKeepsDeclared | apply_netscaler_state.py:454-470 | once the collection's deletes are accepted, the objects of that type left are exactly the declared ones, and other types are untouched |
| Collect.IsDeclared | apply_netscaler_state.py:457-461 | the inner search finds a match exactly when some entry carries the name |
| Collect.RemovalList | apply_netscaler_state.py:455-463 | the loop builds the removal list Undeclared |
| Collect.DeleteAll | apply_netscaler_state.py:465-470 | one delete per name, in order; the result is false if any delete raised |
| Collect.CollectUndeclared | apply_netscaler_state.py:454-470 | lists once, deletes exactly the undeclared listed names, and the result says whether every delete was accepted |
| Servers.ServerFullMatchNoCalls | apply_netscaler_state.py:235-236 | ensure_server_state makes no call exactly when a listed server has the desired name and ip |
| Servers.ServerNoFullMatch | apply_netscaler_state.py:237-283 | without a full match: one or two calls; a name match is updated and nothing created, otherwise one server is created; an address-only match is deleted first exactly when one exists; nothing is renamed |
| Servers.ServerConverges | apply_netscaler_state.py:211-285 | once the calls are accepted the declared server has the desired address, other servers at other addresses are unchanged, and nothing but servers changes |
| Servers.EnsureServerState | apply_netscaler_state.py:211-285 | lists the servers and makes ServerPlan's calls for that listing; the result is true exactly when every call was accepted |
| Servers.ActOnServerMatches | apply_netscaler_state.py:235-283 | the calls for the three buckets; the result is false if any call raised |
| Servers.RunServerEntries | apply_netscaler_state.py:447-449 | every entry runs in turn against a listing taken when it starts; results are ignored |
| Servers.EnsureServersState | apply_netscaler_state.py:434-473 | runs the entries, then collects against a later listing; only the collection's deletes decide the result |
| ServiceGroups.UnmarkedAll | apply_netscaler_state.py:360-364 | when no entry carries the `bound` marker, the members still to add are all the desired members |
| ServiceGroups.MarkedShape | apply_netscaler_state.py:358-364 | marking keeps each entry's server and port, and marks an entry exactly when some observed binding equals it |
| ServiceGroups.MarkedMembers | apply_netscaler_state.py:358-364 | after the first loop the unmarked members are the initially unmarked ones that were not observed |
| ServiceGroups.FoundAfter | apply_netscaler_state.py:359-364 | an observed binding is found exactly when an initially unmarked entry stands for it and it was not observed before |
| ServiceGroups.RemoveOpsContents | apply_netscaler_state.py:358-373 | with distinct observed bindings, the first loop deletes exactly the observed bindings that no unmarked entry stands for |
| ServiceGroups.AddOpsContents | apply_netscaler_state.py:376-386 | the second loop adds exactly the members of the unmarked entries, all in that group |
| ServiceGroups.SweepCalls | apply_netscaler_state.py:353-388 | an observed binding is deleted exactly when no entry stands for it, and a desired member is added exactly when it was not observed; a failed fetch makes no call |
| ServiceGroups.LaterDuplicateDeleted | apply_netscaler_state.py:358-373 | a binding observed a second time is deleted, since every entry equal to it is already marked |
| ServiceGroups.MarksPopped | apply_netscaler_state.py:387-388 | after the sweep no entry carries the marker and each keeps its server and port; after a failed fetch the entries are untouched |
| ServiceGroups.RemoveConverges | apply_netscaler_state.py:358-373 | the first loop's deletes leave exactly the observed bindings that an unmarked entry stands for |
| ServiceGroups.AddConverges | apply_netscaler_state.py:376-386 | the second loop's adds put in the member of every unmarked entry |
| ServiceGroups.MembersConverge | apply_netscaler_state.py:353-388 | once every member call is accepted, the group's members are exactly those the entries declare |
| ServiceGroups.GroupConverges | apply_netscaler_state.py:323-351 | once the group calls are accepted the group exists with the desired type; a recreated group has no members; a group of the right type is untouched |
| ServiceGroups.EnsureGroupObject | apply_netscaler_state.py:323-351 | makes GroupOps for the group the get returned; the result is false if the delete or add raised |
| ServiceGroups.MarkEntries | apply_netscaler_state.py:359-364 | the inner loop marks every entry equal to the binding and reports whether one was found |
| ServiceGroups.RemoveUnmatched | apply_netscaler_state.py:356-373 | the first loop deletes RemoveOps and leaves the entries Marked |
| ServiceGroups.AddUnmarked | apply_netscaler_state.py:376-388 | the second loop adds AddOps and pops every marker |
| ServiceGroups.SweepMembers | apply_netscaler_state.py:356-388 | both loops: MemberOps' calls, and the entries as EntriesAfter leaves them |
| ServiceGroups.EnsureServiceGroupState | apply_netscaler_state.py:309-391 | the group calls, one member fetch, then the sweep when the fetch succeeded; the result covers every call |
| ServiceGroups.RunGroupEntries | apply_netscaler_state.py:406-408 | every entry runs in turn; results are ignored |
| ServiceGroups.EnsureServiceGroupsState | apply_netscaler_state.py:393-432 | runs the entries, then collects the undeclared groups; only the collection decides the result |
| Vservers.NameMatchAlwaysUpdates | apply_netscaler_state.py:540-589 | since the full match never fires, a listed vserver with the desired name is updated on every run, even when it is already as declared |
| Vservers.CheckConverges | apply_netscaler_state.py:590-603 | the port and protocol check leaves the vserver with the desired port and type and changes nothing else |
| Vservers.NameMatchConverges | apply_netscaler_state.py:564-603 | once the name-match calls are accepted, an address match is deleted, the named vserver is the desired one, and no binding changes beyond the delete |
| Vservers.MoveConverges | apply_netscaler_state.py:574-603 | the address update plus the check store the desired vserver and touch no binding |
| Vservers.ReplaceCalls | apply_netscaler_state.py:605-647 | the replace rule makes no call exactly when the vserver is as declared; it creates exactly when the vserver is missing or has another port or type, deleting first when it exists |
| Vservers.ReplaceConverges | apply_netscaler_state.py:605-647 | once the replace calls are accepted the named vserver is exactly the desired one; a vserver not recreated keeps its bindings |
| Vservers.CheckPortAndProtocol | apply_netscaler_state.py:590-603 | makes CheckOps; the result is false if the update raised |
| Vservers.ActOnNameMatch | apply_netscaler_state.py:564-603 | makes NameMatchOps; the result is false if any call raised |
| Vservers.MoveAndCheck | apply_netscaler_state.py:564-603 | the update to the desired address, then the check |
| Vservers.ReplaceVserver | apply_netscaler_state.py:605-647 | fetches by name and makes ReplaceOps for what came back |
| Vservers.ReplaceExisting | apply_netscaler_state.py:613-647 | the branches of the replace rule for the fetched vserver |
| Lbvservers.UnbindContents | apply_netscaler_state.py:661-675 | the first binding loop unbinds exactly the observed service groups that no key names |
| Lbvservers.BindContents | apply_netscaler_state.py:677-686 | the second loop binds exactly the keys not observed, or every key after a failed fetch |
| Lbvservers.BindingCalls | apply_netscaler_state.py:649-686 | an observed binding is unbound exactly when undeclared, a declared name is bound exactly when not observed or the fetch failed, and nothing else is called |
| Lbvservers.BindsDistinct | apply_netscaler_state.py:657-659 | the dictionary's distinct keys are bound at most once each |
| Lbvservers.BindingsIdempotent | apply_netscaler_state.py:649-686 | when the observed bindings are already the declared ones, no call is made |
| Lbvservers.UnbindNone | apply_netscaler_state.py:661-675 | no unbind when every observed binding is declared |
| Lbvservers.BindNone | apply_netscaler_state.py:677-686 | no bind when every key was observed |
| Lbvservers.UnbindConverges | apply_netscaler_state.py:661-675 | the unbinds leave exactly the observed bindings that some key names |
| Lbvservers.BindConverges | apply_netscaler_state.py:677-686 | the binds add every unmarked key |
| Lbvservers.BindingsConverge | apply_netscaler_state.py:649-686 | once the binding calls after a successful fetch are accepted, the lbvserver is bound to exactly the declared service groups |
| Lbvservers.AddressMatchConverges | apply_netscaler_state.py:551-562 | an accepted rename turns the address match into the desired vserver, and it brings its bindings along |
| Lbvservers.MatchPhaseSettles | apply_netscaler_state.py:537-647 | once the match phase is accepted, the replace rule finds the desired vserver and makes no call; with no match at all it creates the vserver |
| Lbvservers.LbEntryConverges | apply_netscaler_state.py:516-689 | once every call of an entry's run is accepted and its fetch succeeds, the lbvserver exists as declared and is bound to exactly the declared groups |
| Lbvservers.ActOnAddressMatch | apply_netscaler_state.py:551-562 | renames, then fetches again unguarded: it raises exactly when the rename was refused, and otherwise checks port and protocol |
| Lbvservers.RenameAndFetch | apply_netscaler_state.py:551-561 | NSLBVServer.rename, then a get by the new name that finds the renamed vserver, or nothing when the rename was refused |
| Lbvservers.LbMatchPhase | apply_netscaler_state.py:547-603 | the match phase's calls: it raises exactly in the address-only branch after a refused rename |
| Lbvservers.DesiredKeys | apply_netscaler_state.py:657-659 | the dictionary of declared names holds each name once |
| Lbvservers.MarkKeys | apply_netscaler_state.py:664-668 | the inner loop marks exactly the keys that name the binding, and reports whether one did |
| Lbvservers.UnbindUndeclared | apply_netscaler_state.py:661-675 | the first loop makes UnbindOps and marks exactly the observed keys |
| Lbvservers.UnbindStep | apply_netscaler_state.py:663-675 | one observed binding of the first loop |
| Lbvservers.BindUnmarked | apply_netscaler_state.py:677-686 | the second loop binds every unmarked key |
| Lbvservers.EnsureLbBindings | apply_netscaler_state.py:649-686 | one binding fetch, then LbBindingOps for the fetched bindings; the result covers every binding call |
| Lbvservers.EnsureLbvserverState | apply_netscaler_state.py:516-689 | the listing, the match phase, and unless that raised, the replace rule and the binding calls |
| Lbvservers.RunLbEntries | apply_netscaler_state.py:488-490 | every entry runs in turn, results ignored, until one raises |
| Lbvservers.EnsureLbvserversState | apply_netscaler_state.py:475-514 | runs the entries; unless one raised, collects the undeclared lbvservers, and only the collection decides the result |
| Csvservers.CsMatchPhaseSettles | apply_netscaler_state.py:1153-1247 | once the match phase is accepted, a name match is the desired csvserver and the replace rule leaves it alone; otherwise the address match is gone and the csvserver is created |
| Csvservers.DefaultEdgeCalls | apply_netscaler_state.py:1249-1258 | at most one edge call, and none exactly when the edge is already the declared one |
| Csvservers.DefaultEdgeConverges | apply_netscaler_state.py:1249-1258 | an accepted edge call leaves the declared default lbvserver, or none, and changes no other edge |
| Csvservers.Cleared | apply_netscaler_state.py:1295-1296 | popping the markers keeps the number of entries, and entry j becomes entry j of the input with its `existing` marker removed |
| Csvservers.UnbindRoundContents | apply_netscaler_state.py:1269-1282 | a round unbinds exactly the fetched bindings that differ from its own entry |
| Csvservers.BindRoundLength | apply_netscaler_state.py:1284-1296 | a round binds at most every entry, and every entry when none is flagged |
| Csvservers.BindRoundContents | apply_netscaler_state.py:1284-1296 | a round binds exactly the entries it does not see flagged |
| Csvservers.RoundCalls | apply_netscaler_state.py:1268-1296 | a round unbinds every fetched binding other than its entry's, binds every other entry, and binds its own entry unless that was fetched and is unique |
| Csvservers.FailedFetchRebinds | apply_netscaler_state.py:1260-1296 | after a failed fetch, n rounds make n times as many binds as there are entries |
| Csvservers.FailedFetchOnlyBinds | apply_netscaler_state.py:1260-1296 | after a failed fetch every call binds a declared entry, and nothing is unbound |
| Csvservers.NoEntriesNoCalls | apply_netscaler_state.py:1268 | an empty `policy_bindings` list makes no call, so existing bindings survive |
| Csvservers.RoundsPrefix | apply_netscaler_state.py:1268 | the calls of the earlier rounds come first |
| Csvservers.NotIdempotent | apply_netscaler_state.py:1268-1296 | with two entries already bound, the first round unbinds the second entry's binding and a later bind restores it |
| Csvservers.UnbindUnmatched | apply_netscaler_state.py:1269-1282 | the first inner loop makes UnbindRound and reports whether the entry was fetched |
| Csvservers.UnbindForRound | apply_netscaler_state.py:1268-1282 | a round's first inner loop runs only after a successful fetch and marks the round's entry when it was fetched |
| Csvservers.BindUnmarked | apply_netscaler_state.py:1284-1296 | the second inner loop binds unflagged entries and pops every marker |
| Csvservers.ClearedTwice | apply_netscaler_state.py:1295-1296 | popping the markers twice is popping them once |
| Csvservers.PolicyRound | apply_netscaler_state.py:1268-1296 | one outer round makes RoundOps and leaves the entries cleared |
| Csvservers.PolicyLoop | apply_netscaler_state.py:1268-1296 | the outer loop makes PolicyOps against the one fetch |
| Csvservers.PolicyStep | apply_netscaler_state.py:1268-1296 | one iteration of the outer loop |
| Csvservers.EnsureDefaultEdge | apply_netscaler_state.py:1249-1258 | makes DefaultEdgeOps for the existing edge; its failures are not reported |
| Csvservers.SetDefaultEdge | apply_netscaler_state.py:1250-1258 | the edge branches once the existing edge is known |
| Csvservers.CsMatchPhase | apply_netscaler_state.py:1153-1205 | an address-only match is deleted; a name match takes the name-match branches |
| Csvservers.PoppedUnmarked | apply_netscaler_state.py:1268-1296 | a csvserver entry whose policy bindings carry no marker comes back from the loop unchanged |
| Csvservers.LoopPops | apply_netscaler_state.py:1268-1296 | the entries the loop leaves are the entry with its markers popped |
| Csvservers.EnsureCsvserverState | apply_netscaler_state.py:1121-1299 | match phase, replace rule, edge, one fetch, policy loop; the result covers all but the edge calls |
| Csvservers.CsvserverObject | apply_netscaler_state.py:1121-1258 | the listing, the match phase, the replace rule and the edge |
| Csvservers.RunCsEntries | apply_netscaler_state.py:1003-1005 | every entry runs in turn; results are ignored |
| Csvservers.EnsureCsvserversState | apply_netscaler_state.py:989-1031 | runs the entries, then collects the undeclared csvservers; only the collection decides the result |
| CsActions.CsActionCalls | apply_netscaler_state.py:781-802 | at most one call; none exactly when the action is already as declared; an add exactly when it is missing |
| CsActions.CsActionConverges | apply_netscaler_state.py:781-802 | once the call is accepted the action is the declared one and nothing else changes |
| CsActions.CsActionSettles | apply_netscaler_state.py:781-802 | a second run against the converged state makes no call |
| CsActions.EnsureCsActionState | apply_netscaler_state.py:781-802 | makes CsActionOps; the update's result is ignored, and only a refused add makes the result false |
| CsActions.RunCsActionEntries | apply_netscaler_state.py:840-842 | every entry runs in turn; results are ignored |
| CsActions.EnsureCsActionsState | apply_netscaler_state.py:826-860 | runs the entries, then deletes every listed action no entry names; the result is always true |
| CsPolicies.CsPolicyCalls | apply_netscaler_state.py:926-986 | no call exactly when the policy is as declared; an update exactly when a differing Advanced Policy exists; delete and add for another type; an add when missing |
| CsPolicies.CsPolicyConverges | apply_netscaler_state.py:926-986 | once the calls are accepted the declared Advanced Policy is stored and nothing else changes |
| CsPolicies.PolicyUpdated | apply_netscaler_state.py:953-964 | the update of an Advanced Policy stores the declared rule and action |
| CsPolicies.PolicyReplaced | apply_netscaler_state.py:965-986 | deleting a policy and adding the declared one stores the declared one |
| CsPolicies.CsPolicySettles | apply_netscaler_state.py:926-986 | a second run against the converged state makes no call |
| CsPolicies.EnsureCsPolicyState | apply_netscaler_state.py:926-986 | makes CsPolicyOps for the policy the get returned; every NSNitroError is caught |
| CsPolicies.ListedNamesListing | apply_netscaler_state.py:890-898 | a listing of the policies names each policy once |
| CsPolicies.ListPolicyNames | apply_netscaler_state.py:885-888 | NSCSPolicy().get_all reduced to names, or None when it raises |
| CsPolicies.CollectCsPolicies | apply_netscaler_state.py:885-901 | a failed listing deletes nothing; otherwise every listed policy no entry names is deleted |
| CsPolicies.RunCsPolicyEntries | apply_netscaler_state.py:878-880 | every entry runs in turn |
| CsPolicies.EnsureCsPoliciesState | apply_netscaler_state.py:863-903 | runs the entries, then the collection; the result is always true |
| FieldMapping.RwPropertiesDistinct | apply_netscaler_state.py:40-90 | no two properties of a type share a NITRO name or a YAML name |
| FieldMapping.TranslateKeys | apply_netscaler_state.py:291-297 | the mapping writes exactly the target names of the properties |
| FieldMapping.TranslateValues | apply_netscaler_state.py:300-306 | with distinct names, each target holds the value of its own source key |
| FieldMapping.TranslateContents | apply_netscaler_state.py:291-306 | the keys and the values of a mapping together |
| FieldMapping.PropertiesRoundTrip | apply_netscaler_state.py:291-306 | over distinct names, mapping to NITRO and back gives the configuration restricted to the YAML names |
| FieldMapping.RoundTrip | apply_netscaler_state.py:40-90 | for every resource type, mapping to NITRO and back gives the configuration restricted to that type's YAML fields |
| FieldMapping.MapYamlConfigToNitroObjectOptions | apply_netscaler_state.py:291-297 | KeyError (None) exactly when a YAML field is missing; otherwise the translation |
| FieldMapping.MapNitroObjectOptionsToYamlConfig | apply_netscaler_state.py:300-306 | KeyError (None) exactly when a NITRO option is missing; otherwise the translation |
| FieldMapping.MappedFields | apply_netscaler_state.py:291-306 | a type's mapping writes exactly its target names, each with its source's value |
| FieldMapping.ConvertListOfNitroObjectsToYamlConfig | apply_netscaler_state.py:1470-1485 | no list gives the empty list; otherwise KeyError exactly when an object misses a field, else each object's YAML form in order |
| FieldMapping.ObjectToYaml | apply_netscaler_state.py:1482 | one object's YAML form, or KeyError when it misses a field |
| FieldMapping.AssignIfListNotEmpty | apply_netscaler_state.py:1488-1502 | a non-empty list is stored under the key, an empty list leaves the dictionary as it was, and every other key keeps its value |
| Scheduler.PassesIndex | apply_netscaler_state.py:1710-1718 | call 6p + j of the passes is type j of pass p |
| Scheduler.ScheduleShape | apply_netscaler_state.py:1697-1718 | a connected group without `build` gets six passes of six calls in the order of yaml_config_resource_types, with None for an absent section; otherwise no call |
| Scheduler.PrefixOfSchedule | apply_netscaler_state.py:1710-1718 | the calls up to a point of a pass start the full schedule |
| Scheduler.Dispatch | apply_netscaler_state.py:1714-1717 | the `exec` dispatch runs the reconciler of type t on the group's section of that type, as Visited states: the reconciler's own trace, fetch and result facts hold from the trace on entry to the trace on exit; the service group and csvserver reconcilers replace their section with the one they return, the others keep the group; only the lbvserver reconciler can raise, exactly when it returned Raised |
| Scheduler.VisitsExtend | apply_netscaler_state.py:1713-1717 | one more reconciler call, after calls none of which raised, extends the record of what the calls did |
| Scheduler.ProcessGroup | apply_netscaler_state.py:1693-1719 | the calls made for one group are its whole schedule, or, when an lbvserver reconciler raised, a start of it ending there; call j ran its type's reconciler on the group as the calls before left it, handed a section exactly when the group has one, from the trace where call j - 1 ended, and the last call ends at the appliance's final trace; with no connection or `build`, nothing happens to the appliance |
| Scheduler.RunPasses | apply_netscaler_state.py:1708-1718 | the six passes of a connected group without `build`: all 36 calls in order, or a start of them ending at the lbvserver reconciler that raised, each ran as Visits states from the trace on entry to the final one |
| Scheduler.RunPass | apply_netscaler_state.py:1713-1717 | one pass visits the six types in order until a reconciler raises, and extends the record of the calls by exactly those of the pass, each running its reconciler as Visited states |
| Scheduler.PassStep | apply_netscaler_state.py:1714-1717 | type n of pass i runs its reconciler on the current group and adds that call and what it did to the record |
| Scheduler.PassCallsNext | apply_netscaler_state.py:1713-1717 | visiting one more type of a pass adds the call of that type |
| Scheduler.ReconcileGroups | apply_netscaler_state.py:1692-1721 | groups run in order until one raises, which then is the last; group j ran as ProcessGroup states on its appliance, its calls its whole schedule or, for the raising one, a start of it, each ran as Visits states, starting where the last earlier group on the same appliance ended; every appliance ends where the last group on it ended, and an appliance no group used sees no call |
| Scheduler.GroupRunsAt | apply_netscaler_state.py:1692-1721 | every recorded group ran its schedule, or a start of it, as Visits states over its span, and only the last may have raised |
| Scheduler.GroupRunsExtend | apply_netscaler_state.py:1692-1721 | one more group run after runs that did not raise extends the record |
| Scheduler.GroupStep | apply_netscaler_state.py:1693-1721 | one more group, reconciled by ProcessGroup on its appliance, extends the record of the loop |
| Legacy.LegacyFullMatchNoCalls | applyNetscalerState.py:53-64 | no call exactly when a server has the desired name and ip |
| Legacy.LegacyAddressOnlyRenames | applyNetscalerState.py:67-75 | an address-only match is renamed to the desired name, with nothing deleted or created |
| Legacy.LegacyNameAndAddress | applyNetscalerState.py:87-101 | a name match and an address match: the address match is deleted, then the name match moves to the desired address and keeps its translation fields |
| Legacy.LegacyNoAddressMatch | applyNetscalerState.py:76-110 | without an address match, a name match is updated with cleared translation fields, and otherwise one server is created |
| Legacy.RenameConverges | applyNetscalerState.py:67-75 | the rename leaves the declared server at the desired address |
| Legacy.DeleteUpdateConverges | applyNetscalerState.py:87-101 | the two-object branch leaves the declared server at the desired address |
| Legacy.UpdateConverges | applyNetscalerState.py:76-86 | the update leaves the declared server at the desired address |
| Legacy.AddConverges | applyNetscalerState.py:102-110 | the add leaves the declared server at the desired address |
| Legacy.LegacyServerConverges | applyNetscalerState.py:50-113 | once the calls are accepted the declared server has the desired address, unrelated servers are unchanged, and nothing but servers changes |
| Legacy.LegacyEnsureServerState | applyNetscalerState.py:50-113 | lists the servers and makes LegacyServerPlan's calls; the result is true exactly when every call was accepted |
| Legacy.ActOnLegacyMatches | applyNetscalerState.py:63-110 | the branches after the match loop |
| Legacy.RunLegacyServerEntries | applyNetscalerState.py:225-226 | every entry runs in turn; results are ignored |
| Legacy.LegacyEnsureServersState | applyNetscalerState.py:221-245 | runs the entries, then collects against a later listing; only the collection decides the result |
| Legacy.UpdateOpsContents | applyNetscalerState.py:160-170 | the inner loop updates only to entries of the binding's server, and updates to the first such entry of another port |
| Legacy.BindingOpsKinds | applyNetscalerState.py:158-177 | a binding's calls are updates of its server to a desired entry, and its own delete, made exactly when no entry names its server |
| Legacy.SweepOpsKinds | applyNetscalerState.py:156-177 | the sweep only updates members of observed servers to desired entries, and deletes members of that group |
| Legacy.SweepDeletes | applyNetscalerState.py:156-177 | the sweep deletes an observed binding exactly when no entry names its server |
| Legacy.SweepUpdates | applyNetscalerState.py:156-177 | a binding whose server's first entry has another port is updated to that entry |
| Legacy.SweepUpdate | applyNetscalerState.py:156-177 | the same for one binding and its first entry |
| Legacy.LegacyAddOpsContents | applyNetscalerState.py:180-190 | the last loop adds exactly the entries left without the `bound` key |
| Legacy.LegacyMemberCalls | applyNetscalerState.py:148-190 | no call after a failed fetch; otherwise deletes exactly the bindings of unnamed servers, updates ports in place, and adds exactly the entries that carry no `bound` key and whose server no observed binding names |
| Legacy.MatchBinding | applyNetscalerState.py:159-170 | the inner loop marks the entries of the binding's server and makes UpdateOps |
| Legacy.MatchEntry | applyNetscalerState.py:160-170 | one entry of the inner loop |
| Legacy.SweepBinding | applyNetscalerState.py:158-177 | one observed binding: the inner loop, then the delete when no entry names its server |
| Legacy.LegacySweep | applyNetscalerState.py:156-177 | the sweep over the observed bindings |
| Legacy.SweepStep | applyNetscalerState.py:158-177 | one iteration of the sweep |
| Legacy.LegacyAddUnbound | applyNetscalerState.py:180-190 | the last loop adds every entry without the `bound` key |
| Legacy.LegacySweepMembers | applyNetscalerState.py:156-190 | the sweep, then the adds: LegacyMemberOps' calls |
| Legacy.LegacyEnsureServicegroupState | applyNetscalerState.py:116-193 | the group calls, one member fetch, and the sweep and adds when the fetch succeeded; the entries keep their `bound` keys |
| Legacy.RunLegacyGroupEntries | applyNetscalerState.py:208-209 | every entry runs in turn; results are ignored |
| Legacy.LegacyEnsureServicegroupsState | applyNetscalerState.py:195-219 | lists the groups before the entries run, and deletes the undeclared ones after them; only the deletes decide the result |
| Legacy.EarlyListingOnly | applyNetscalerState.py:198-216 | every group the collection deletes was listed before the entries ran |
| Legacy.LegacyProcessGroup | applyNetscalerState.py:449-455 | one group: the servers section, then the service groups section from where it ended, then the lbvservers section from where that ended, each as its reconciler's contract states; the group raised exactly when the lbvserver reconciler did |
| Legacy.LegacyMain | applyNetscalerState.py:446-456 | groups in order until one raises, which then is the last processed; group j ran as LegacyProcessGroup states, starting where the last earlier group on the same appliance ended; every appliance ends where the last group on it ended, and an appliance no processed group used sees no call |
| Legacy.LegacyMainStep | applyNetscalerState.py:449-456 | one more group, reconciled on its appliance, extends the record of the loop |
| ApplianceRuns.LastUse | apply_netscaler_state.py:1692-1696 | the last earlier group on an appliance: it is that appliance and no later one before the bound is |
| Legacy.RunsRanAt | applyNetscalerState.py:449-456 | every recorded group ran as its record says, and only the last may have raised |
| Legacy.RunsRanExtend | applyNetscalerState.py:449-456 | one more group run after runs that did not raise extends the record |
| ApplianceRuns.SpansChainedExtend | apply_netscaler_state.py:1692-1721 | one more group run that starts where its appliance was left extends the record of where runs start |
| ApplianceRuns.EndsExtend | apply_netscaler_state.py:1692-1721 | after one more run, its appliance is where that run ended and every other appliance is as before |
| ApplianceRuns.UnusedUntouched | apply_netscaler_state.py:1692-1721 | an appliance no run used is as it was on entry |
| ApplianceRuns.SpansExtend | apply_netscaler_state.py:1692-1721 | one more run, starting where its appliance was and touching no other appliance, keeps the runs chained and every appliance where the last run on it ended |
| Legacy.LegacyServerRunsExtend | applyNetscalerState.py:225-226 | one more server entry run extends the record of the entry loop |

## Left out

- Schema validation (`validate_config_yaml`, `validate_schema`, `validate_ns_groups_conf`): the model starts from well-formed groups.
- Reading and writing YAML files (`get_config_yaml`, `update_yaml`, `ordered_load`, `ordered_dump`), logging, and the timestamped backup file name: these are I/O.
- `connect` and `disconnect`: each group's connection is an `Appliance` parameter, and whether the session came up is the `connected` flag.
- `check_populate_ns_group_yaml`: its effect on a group is not modelled. The `build` key is an input flag.
- The snapshot export (`get_ns_group_conf_from_ns`) and the `build` copy of it into the group: these are remote reads and YAML assembly. Only the helpers it uses are modelled: `convert_list_of_nitro_objects_to_yaml_config`, `assign_if_list_not_empty` and the two mapping loops.
- FieldMapping.AssignIfListNotEmpty: the source updates the dictionary in place and returns None. The model returns the updated map instead.
- The key lookup in `rw_properties` for an unknown resource type (a KeyError) cannot happen: the resource types are an enumeration.
- `create_ns_resource_object` and `create_ordered_dict_from_config_yaml`: no reconciler calls them. The first passes the wrong number of arguments.
- `get_lbvserver_bindings_for_csvserver`: it reads a variable that is never assigned, and no reconciler calls it.
- The non-list branch of `get_all_resources_by_type_and_name`: the binding fetches are modelled as returning a list or raising.
- `get_all` of servers, service groups, vservers and actions: the model treats it as never raising and as listing in an order the appliance chooses. Only the `get_all` of cs policies can fail, since only that call is guarded.
- Dictionary iteration order: Python 2 dictionaries iterate in an arbitrary order. The model relies only on the key set of the lbvserver's binding dictionary.
- The path where `ensure_cs_policy_state` reads a variable before assigning it: the model takes the branch the policy type selects.
- The empty stubs `ensure_cs_action_state` and `get_cs_action` of the earlier revision: they make no call, and its `main` does not use them.
- Missing sections in the earlier revision: its `main` reads the `servers`, `serviceGroups` and `lb_vservers` keys without a guard, so a missing key raises KeyError. The model gives every group all three sections.
- A failed connection in the earlier revision: its `main` does not check the session, so every group is modelled as connected.
- CsPolicies.EnsureCsPolicyState: the `[0]` on the response of the policy get (apply_netscaler_state.py:944) raises IndexError when the appliance returns an empty list. That error is not an NSNitroError, so it escapes to `main`. The model takes the get as returning the policy or raising NSNitroError.
- Concurrency between appliances, and NITRO's own checks on names and values (the appliance may reject a call for any reason): a refused call is modelled as a position in the `fails` oracle.
