/**
 * The Smart Contract Hub: a directory of deployed contracts. Anyone who owns
 * an AZERO.ID domain can list a contract under it, optionally tied to a
 * group of the Groups contract they belong to, and later edit the mutable
 * part of the listing. The domain resolver and the Groups membership check
 * are other contracts; here they are function parameters.
 */
module Hub {
  import opened Primitives
  import opened InkEnv
  import opened Text
  import GE = GroupsErrors
  import G = Groups
  import opened HubErrors
  import opened Validations

  // === RECORDS ===

  /** `Config`: the two addresses and the number of listings. */
  datatype Config = Config(azGroupsAddress: AccountId, azeroIdRouterAddress: AccountId, smartContractsCount: U32)

  /** A listing. `environment` is 0 production, 1 testnet, 2 Smarknet, not enforced. */
  datatype SmartContract = SmartContract(
    id: U32,
    smartContractAddress: AccountId,
    environment: U8,
    caller: AccountId,
    enabled: bool,
    azeroIdDomain: string,
    abiUrl: string,
    contractUrl: Option<string>,
    wasmUrl: Option<string>,
    auditUrl: Option<string>,
    groupId: Option<U32>,
    projectName: Option<string>,
    projectWebsite: Option<string>,
    github: Option<string>)

  /** The arguments of `create`, in the message's order. */
  datatype CreateArgs = CreateArgs(
    smartContractAddress: AccountId,
    environment: U8,
    azeroIdDomain: string,
    abiUrl: string,
    contractUrl: Option<string>,
    wasmUrl: Option<string>,
    auditUrl: Option<string>,
    groupId: Option<U32>,
    projectName: Option<string>,
    projectWebsite: Option<string>,
    github: Option<string>)

  /** The arguments of `update` after the id, in the message's order. */
  datatype UpdateArgs = UpdateArgs(
    enabled: bool,
    azeroIdDomain: string,
    groupId: Option<U32>,
    auditUrl: Option<string>,
    projectName: Option<string>,
    projectWebsite: Option<string>,
    github: Option<string>)

  /** The router's `get_address`: the domain's address, or `None` when it answers with an error. */
  type Resolver = string -> Option<AccountId>

  /**
   * The Groups contract's `validate_membership`, its error read with the
   * Groups contract's own declaration (`Boundary.DecodeGroupsError`), not
   * the Hub's five-variant copy.
   */
  type Membership = (U32, AccountId) -> Result<G.Role, GE.GroupsError>

  /** The contract's storage. */
  datatype HubState = HubState(
    azGroupsAddress: AccountId,
    azeroIdRouterAddress: AccountId,
    smartContracts: map<U32, SmartContract>,
    smartContractsCount: U32)
  {
    /** Listings are exactly ids 0..count-1, each stored under its own id. */
    ghost predicate Valid() {
      && (forall id: U32 :: id in smartContracts <==> id < smartContractsCount)
      && (forall id :: id in smartContracts ==> smartContracts[id].id == id)
    }
  }

  datatype HubStep<T> = HubStep(result: Result<T, HubError>, post: HubState)

  // === QUERIES AND HELPERS ===

  /** `config`. */
  function GetConfig(s: HubState): (c: Config)
    ensures c.smartContractsCount == s.smartContractsCount
    ensures c.azGroupsAddress == s.azGroupsAddress && c.azeroIdRouterAddress == s.azeroIdRouterAddress
  {
    Config(s.azGroupsAddress, s.azeroIdRouterAddress, s.smartContractsCount)
  }

  /** `show`. */
  function Show(s: HubState, id: U32): (r: Result<SmartContract, HubError>)
    ensures r.Ok? <==> id in s.smartContracts
    ensures r.Ok? ==> r.value == s.smartContracts[id]
    ensures r.Err? ==> r.error == HubError.NotFound("SmartContract")
    ensures s.Valid() ==> (r.Ok? <==> id < s.smartContractsCount)
    ensures s.Valid() && r.Ok? ==> r.value.id == id
  {
    if id in s.smartContracts then Ok(s.smartContracts[id]) else Err(HubError.NotFound("SmartContract"))
  }

  /**
   * `format_url`: the trimmed URL. The presence check that follows it in
   * `create` therefore refuses exactly the all-whitespace links.
   */
  function FormatUrl(url: string): (r: string)
    ensures Trim(r) == r
    ensures ValidatePresenceOf(r, "Link to abi").Err? <==> AllWhitespace(url)
  {
    TrimIdempotent(url);
    TrimEmptyIffAllWhitespace(url);
    Trim(url)
  }

  /** `address_by_domain`: any failure of the resolver becomes `NotFound("Domain")`. */
  function AddressByDomain(resolver: Resolver, domain: string): (r: Result<AccountId, HubError>)
    ensures r.Ok? <==> resolver(domain).Some?
    ensures r.Ok? ==> r.value == resolver(domain).value
    ensures r.Err? ==> r.error == HubError.NotFound("Domain")
  {
    match resolver(domain)
    case Some(address) => Ok(address)
    case None => Err(HubError.NotFound("Domain"))
  }

  /**
   * `validate_membership`: the Groups answer, its error wrapped by
   * `From<AZGroupsError>`, under the corrected reading of that error.
   */
  function ValidateMembership(membership: Membership, groupId: U32, account: AccountId): (r: Result<G.Role, HubError>)
    ensures r.Ok? <==> membership(groupId, account).Ok?
    ensures r.Ok? ==> r.value == membership(groupId, account).value
    ensures r.Err? ==> r.error == HubError.AZGroupsError(membership(groupId, account).error)
  {
    match membership(groupId, account)
    case Ok(role) => Ok(role)
    case Err(e) => Err(FromGroupsError(e))
  }

  // === HANDLERS, AS FUNCTIONS OF THE STORAGE ===

  /** The listing `create` stores on success. */
  function NewListing(id: U32, caller: AccountId, a: CreateArgs): SmartContract {
    SmartContract(id, a.smartContractAddress, a.environment, caller, true, a.azeroIdDomain, FormatUrl(a.abiUrl),
                  a.contractUrl, a.wasmUrl, a.auditUrl, a.groupId, a.projectName, a.projectWebsite, a.github)
  }

  /**
   * `create`: capacity, then the domain's owner, then group membership when
   * a group is given, then a non-blank ABI link. On success the listing is
   * stored under the old count, which moves on by one.
   */
  function CreateStep(s: HubState, caller: AccountId, resolver: Resolver, membership: Membership, a: CreateArgs)
    : (o: HubStep<SmartContract>)
    ensures o.result.Err? ==> o.post == s
    ensures s.smartContractsCount == U32_MAX ==>
      o.result == Err(HubError.UnprocessableEntity("Smart contract limit reached"))
    ensures s.smartContractsCount < U32_MAX && resolver(a.azeroIdDomain).None? ==>
      o.result == Err(HubError.NotFound("Domain"))
    ensures (s.smartContractsCount < U32_MAX && resolver(a.azeroIdDomain).Some?
             && resolver(a.azeroIdDomain).value != caller) ==> o.result == Err(HubError.Unauthorised)
    ensures (s.smartContractsCount < U32_MAX && resolver(a.azeroIdDomain) == Some(caller)
             && a.groupId.Some? && membership(a.groupId.value, caller).Err?) ==>
      o.result == Err(HubError.AZGroupsError(membership(a.groupId.value, caller).error))
    ensures (s.smartContractsCount < U32_MAX && resolver(a.azeroIdDomain) == Some(caller)
             && (a.groupId.None? || membership(a.groupId.value, caller).Ok?) && AllWhitespace(a.abiUrl)) ==>
      o.result == Err(HubError.UnprocessableEntity("Link to abi can't be blank"))
    ensures o.result.Ok? <==>
      && s.smartContractsCount < U32_MAX
      && resolver(a.azeroIdDomain) == Some(caller)
      && (a.groupId.None? || membership(a.groupId.value, caller).Ok?)
      && !AllWhitespace(a.abiUrl)
    ensures o.result.Ok? ==>
      && o.result.value == NewListing(s.smartContractsCount, caller, a)
      && o.post == s.(smartContracts := s.smartContracts[s.smartContractsCount := o.result.value],
                      smartContractsCount := s.smartContractsCount + 1)
  {
    if s.smartContractsCount == U32_MAX then
      HubStep(Err(HubError.UnprocessableEntity("Smart contract limit reached")), s)
    else if AddressByDomain(resolver, a.azeroIdDomain).Err? then
      HubStep(Err(AddressByDomain(resolver, a.azeroIdDomain).error), s)
    else if caller != AddressByDomain(resolver, a.azeroIdDomain).value then
      HubStep(Err(HubError.Unauthorised), s)
    else if a.groupId.Some? && ValidateMembership(membership, a.groupId.value, caller).Err? then
      HubStep(Err(ValidateMembership(membership, a.groupId.value, caller).error), s)
    else if ValidatePresenceOf(FormatUrl(a.abiUrl), "Link to abi").Err? then
      assert "Link to abi" + " can't be blank" == "Link to abi can't be blank";
      HubStep(Err(ValidatePresenceOf(FormatUrl(a.abiUrl), "Link to abi").error), s)
    else
      var listing := NewListing(s.smartContractsCount, caller, a);
      HubStep(Ok(listing), s.(smartContracts := s.smartContracts[s.smartContractsCount := listing],
                              smartContractsCount := s.smartContractsCount + 1))
  }

  /** The listing `update` stores: the editable fields replaced, the rest kept. */
  function EditedListing(sc: SmartContract, a: UpdateArgs): SmartContract {
    sc.(enabled := a.enabled, azeroIdDomain := a.azeroIdDomain, groupId := a.groupId, auditUrl := a.auditUrl,
        projectName := a.projectName, projectWebsite := a.projectWebsite, github := a.github)
  }

  /**
   * `update`: the listing must exist and belong to the caller; a new domain
   * must resolve to the caller; a given group must accept the caller. The
   * record is written back under its own id.
   */
  function UpdateStep(s: HubState, caller: AccountId, resolver: Resolver, membership: Membership, id: U32, a: UpdateArgs)
    : (o: HubStep<SmartContract>)
    ensures o.result.Err? ==> o.post == s
    ensures id !in s.smartContracts ==> o.result == Err(HubError.NotFound("SmartContract"))
    ensures id in s.smartContracts && s.smartContracts[id].caller != caller ==> o.result == Err(HubError.Unauthorised)
    ensures (id in s.smartContracts && s.smartContracts[id].caller == caller
             && s.smartContracts[id].azeroIdDomain != a.azeroIdDomain) ==>
      && (resolver(a.azeroIdDomain).None? ==> o.result == Err(HubError.NotFound("Domain")))
      && (resolver(a.azeroIdDomain).Some? && resolver(a.azeroIdDomain).value != caller ==> o.result == Err(HubError.Unauthorised))
    ensures o.result.Ok? <==>
      && id in s.smartContracts && s.smartContracts[id].caller == caller
      && (s.smartContracts[id].azeroIdDomain == a.azeroIdDomain || resolver(a.azeroIdDomain) == Some(caller))
      && (a.groupId.None? || membership(a.groupId.value, caller).Ok?)
    ensures (o.result.Err? && id in s.smartContracts && s.smartContracts[id].caller == caller
             && (s.smartContracts[id].azeroIdDomain == a.azeroIdDomain || resolver(a.azeroIdDomain) == Some(caller))) ==>
      o.result == Err(HubError.AZGroupsError(membership(a.groupId.value, caller).error))
    ensures o.result.Ok? ==>
      && o.result.value == EditedListing(s.smartContracts[id], a)
      && o.post == s.(smartContracts := s.smartContracts[s.smartContracts[id].id := o.result.value])
    ensures s.Valid() && o.result.Ok? ==> o.post.smartContracts == s.smartContracts[id := o.result.value]
  {
    if Show(s, id).Err? then HubStep(Err(Show(s, id).error), s)
    else if caller != Show(s, id).value.caller then HubStep(Err(HubError.Unauthorised), s)
    else
      var sc := Show(s, id).value;
      if sc.azeroIdDomain != a.azeroIdDomain && AddressByDomain(resolver, a.azeroIdDomain).Err? then
        HubStep(Err(AddressByDomain(resolver, a.azeroIdDomain).error), s)
      else if sc.azeroIdDomain != a.azeroIdDomain && caller != AddressByDomain(resolver, a.azeroIdDomain).value then
        HubStep(Err(HubError.Unauthorised), s)
      else if a.groupId.Some? && ValidateMembership(membership, a.groupId.value, caller).Err? then
        HubStep(Err(ValidateMembership(membership, a.groupId.value, caller).error), s)
      else
        var edited := EditedListing(sc, a);
        HubStep(Ok(edited), s.(smartContracts := s.smartContracts[sc.id := edited]))
  }

  // === PROPERTIES ===

  /** `create` and `update` keep ids sequential and every listing under its own id. */
  lemma CreateKeepsValid(s: HubState, caller: AccountId, resolver: Resolver, membership: Membership, a: CreateArgs)
    requires s.Valid()
    ensures CreateStep(s, caller, resolver, membership, a).post.Valid()
  {
    var o := CreateStep(s, caller, resolver, membership, a);
    if o.result.Ok? {
      forall id: U32 ensures id in o.post.smartContracts <==> id < o.post.smartContractsCount {
        assert id in o.post.smartContracts <==> id in s.smartContracts || id == s.smartContractsCount;
      }
    }
  }

  lemma UpdateKeepsValid(s: HubState, caller: AccountId, resolver: Resolver, membership: Membership, id: U32, a: UpdateArgs)
    requires s.Valid()
    ensures UpdateStep(s, caller, resolver, membership, id, a).post.Valid()
  {
  }

  /** A created listing is shown under its id, and the configuration counts it. */
  lemma CreatedIsShown(s: HubState, caller: AccountId, resolver: Resolver, membership: Membership, a: CreateArgs)
    requires CreateStep(s, caller, resolver, membership, a).result.Ok?
    ensures var o := CreateStep(s, caller, resolver, membership, a);
      && Show(o.post, o.result.value.id) == Ok(o.result.value)
      && GetConfig(o.post).smartContractsCount == GetConfig(s).smartContractsCount + 1
      && o.result.value.abiUrl == Trim(a.abiUrl) && o.result.value.caller == caller && o.result.value.enabled
  {
  }

  /** At capacity `create` does not consult the resolver or the Groups contract. */
  lemma CreateAtLimitConsultsNothing(s: HubState, caller: AccountId, r1: Resolver, r2: Resolver,
                                     m1: Membership, m2: Membership, a: CreateArgs)
    requires s.smartContractsCount == U32_MAX
    ensures CreateStep(s, caller, r1, m1, a) == CreateStep(s, caller, r2, m2, a)
  {
  }

  /** Without a group neither handler consults the Groups contract. */
  lemma NoGroupConsultsNoMembership(s: HubState, caller: AccountId, resolver: Resolver, m1: Membership, m2: Membership,
                                    a: CreateArgs, id: U32, u: UpdateArgs)
    requires a.groupId.None? && u.groupId.None?
    ensures CreateStep(s, caller, resolver, m1, a) == CreateStep(s, caller, resolver, m2, a)
    ensures UpdateStep(s, caller, resolver, m1, id, u) == UpdateStep(s, caller, resolver, m2, id, u)
  {
  }

  /** `update` consults the resolver only when the domain changes. */
  lemma UpdateKeepingDomainConsultsNoResolver(s: HubState, caller: AccountId, r1: Resolver, r2: Resolver,
                                              membership: Membership, id: U32, u: UpdateArgs)
    requires id in s.smartContracts && s.smartContracts[id].azeroIdDomain == u.azeroIdDomain
    ensures UpdateStep(s, caller, r1, membership, id, u) == UpdateStep(s, caller, r2, membership, id, u)
  {
  }

  /**
   * With the Groups contract in state `gs` answering the membership check,
   * a listing tied to a group is created only for a member of an enabled
   * group, and each refusal reaches the Hub's caller as the Groups error.
   */
  lemma CreateGatedByGroups(s: HubState, gs: G.GroupsState, caller: AccountId, resolver: Resolver,
                            membership: Membership, a: CreateArgs)
    requires forall g, acc :: membership(g, acc) == G.ValidateMembership(gs, g, acc)
    requires s.smartContractsCount < U32_MAX && resolver(a.azeroIdDomain) == Some(caller) && a.groupId.Some?
    ensures var o := CreateStep(s, caller, resolver, membership, a);
      && (o.result.Ok? ==> a.groupId.value in gs.groups && gs.groups[a.groupId.value].enabled
                           && (a.groupId.value, caller) in gs.groupUsers
                           && G.AtLeast(gs.groupUsers[(a.groupId.value, caller)].role, G.Member))
      && (a.groupId.value in gs.groups && !gs.groups[a.groupId.value].enabled ==>
            o.result == Err(HubError.AZGroupsError(GE.GroupDisabled)))
  {
    assert membership(a.groupId.value, caller) == G.ValidateMembership(gs, a.groupId.value, caller);
  }

  // === THE CONTRACT ===

  class AZSmartContractHub {
    var azGroupsAddress: AccountId
    var azeroIdRouterAddress: AccountId
    var smartContracts: map<U32, SmartContract>
    var smartContractsCount: U32

    function State(): HubState
      reads this
    {
      HubState(azGroupsAddress, azeroIdRouterAddress, smartContracts, smartContractsCount)
    }

    /** `new`: the two addresses, and no listings. */
    constructor (azeroIdRouterAddress: AccountId, azGroupsAddress: AccountId)
      ensures State() == HubState(azGroupsAddress, azeroIdRouterAddress, map[], 0)
      ensures State().Valid()
    {
      this.azGroupsAddress := azGroupsAddress;
      this.azeroIdRouterAddress := azeroIdRouterAddress;
      smartContracts := map[];
      smartContractsCount := 0;
    }

    method Create(caller: AccountId, resolver: Resolver, membership: Membership, a: CreateArgs)
      returns (r: Result<SmartContract, HubError>)
      modifies this
      ensures HubStep(r, State()) == CreateStep(old(State()), caller, resolver, membership, a)
    {
      if smartContractsCount == U32_MAX {
        return Err(HubError.UnprocessableEntity("Smart contract limit reached"));
      }
      var owner := AddressByDomain(resolver, a.azeroIdDomain);
      if owner.Err? {
        return Err(owner.error);
      }
      if caller != owner.value {
        return Err(HubError.Unauthorised);
      }
      if a.groupId.Some? {
        var role := ValidateMembership(membership, a.groupId.value, caller);
        if role.Err? {
          return Err(role.error);
        }
      }
      var abiUrlFormatted := FormatUrl(a.abiUrl);
      var presence := ValidatePresenceOf(abiUrlFormatted, "Link to abi");
      if presence.Err? {
        return Err(presence.error);
      }
      var smartContract := SmartContract(smartContractsCount, a.smartContractAddress, a.environment, caller, true,
                                         a.azeroIdDomain, abiUrlFormatted, a.contractUrl, a.wasmUrl, a.auditUrl,
                                         a.groupId, a.projectName, a.projectWebsite, a.github);
      smartContracts := smartContracts[smartContractsCount := smartContract];
      smartContractsCount := smartContractsCount + 1;
      r := Ok(smartContract);
    }

    method Update(caller: AccountId, resolver: Resolver, membership: Membership, id: U32, a: UpdateArgs)
      returns (r: Result<SmartContract, HubError>)
      modifies this
      ensures HubStep(r, State()) == UpdateStep(old(State()), caller, resolver, membership, id, a)
    {
      var found := Show(State(), id);
      if found.Err? {
        return Err(found.error);
      }
      var smartContract := found.value;
      if caller != smartContract.caller {
        return Err(HubError.Unauthorised);
      }
      smartContract := smartContract.(enabled := a.enabled);
      if smartContract.azeroIdDomain != a.azeroIdDomain {
        var owner := AddressByDomain(resolver, a.azeroIdDomain);
        if owner.Err? {
          return Err(owner.error);
        }
        if caller != owner.value {
          return Err(HubError.Unauthorised);
        }
        smartContract := smartContract.(azeroIdDomain := a.azeroIdDomain);
      }
      if a.groupId.Some? {
        var role := ValidateMembership(membership, a.groupId.value, caller);
        if role.Err? {
          return Err(role.error);
        }
      }
      smartContract := smartContract.(groupId := a.groupId, projectName := a.projectName,
                                      projectWebsite := a.projectWebsite, github := a.github, auditUrl := a.auditUrl);
      smartContracts := smartContracts[smartContract.id := smartContract];
      r := Ok(smartContract);
    }
  }
}
