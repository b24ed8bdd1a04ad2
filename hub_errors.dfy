/**
 * The Hub's error type, the Groups error as the Hub's source declares it
 * (a five-variant copy), and the Hub's `From` conversions.
 */
module HubErrors {
  import opened InkEnv
  import GE = GroupsErrors

  /**
   * `AZSmartContractHubError`. `UnprocessableEntity` is not in the declared
   * enum but the Hub constructs it, so the model has it. The wrapped Groups
   * error is the Groups contract's own type, the corrected reading of
   * `MirrorGroupsError` below (see Boundary for why).
   */
  datatype HubError =
    | ContractCall(lang: LangError)
    | InkEnvError(text: string)
    | NotFound(entity: string)
    | Unauthorised
    | Unchanged(field: string)
    | AZGroupsError(groupsError: GE.GroupsError)
    | UnprocessableEntity(message: string)

  /** The Hub's own copy of `AZGroupsError`, exactly as declared there: five variants. */
  datatype MirrorGroupsError =
    | ContractCall(lang: LangError)
    | InkEnvError(text: string)
    | NotFound(entity: string)
    | Unauthorised
    | UnprocessableEntity(message: string)

  /** `From<AZGroupsError>`: the Groups error travels inside the `AZGroupsError` variant. */
  function FromGroupsError(e: GE.GroupsError): (r: HubError)
    ensures r.AZGroupsError? && r.groupsError == e
  {
    AZGroupsError(e)
  }

  /** `From<ink::env::Error>` keeps the `Debug` text in the `InkEnvError` variant. */
  function FromEnvError(e: EnvError): (r: HubError)
    ensures r.InkEnvError? && r.text == e.debugText
  {
    HubError.InkEnvError(e.debugText)
  }

  /** `From<LangError>` wraps the dispatch failure unchanged. */
  function FromLangError(e: LangError): (r: HubError)
    ensures r.ContractCall? && r.lang == e
  {
    HubError.ContractCall(e)
  }

  /** Wrapping loses nothing: distinct Groups errors stay distinct in the Hub. */
  lemma FromGroupsErrorInjective(a: GE.GroupsError, b: GE.GroupsError)
    ensures FromGroupsError(a) == FromGroupsError(b) ==> a == b
  {
  }

  /** No conversion produces one of the Hub's own business errors. */
  lemma ConversionsNeverBusiness(g: GE.GroupsError, e: EnvError, l: LangError)
    ensures forall r :: r in {FromGroupsError(g), FromEnvError(e), FromLangError(l)} ==>
      !r.NotFound? && !r.Unauthorised? && !r.Unchanged? && !r.UnprocessableEntity?
  {
  }
}
