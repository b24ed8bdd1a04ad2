/** The error type of the Groups contract and its conversions from ink!'s failures. */
module GroupsErrors {
  import opened InkEnv

  /** `AZGroupsError`, variants in declaration order. */
  datatype GroupsError =
    | ContractCall(lang: LangError)
    | GroupDisabled
    | InkEnvError(text: string)
    | NotAMember
    | NotFound(entity: string)
    | Unauthorised
    | UnprocessableEntity(message: string)
  {
    /** A failure of the call or runtime layer rather than of a business rule. */
    predicate IsTransport() {
      ContractCall? || InkEnvError?
    }
  }

  /** `From<ink::env::Error>`: keep the error's `Debug` text. */
  function FromEnvError(e: EnvError): (r: GroupsError)
    ensures r.InkEnvError? && r.IsTransport()
    ensures r.text == e.debugText
  {
    InkEnvError(e.debugText)
  }

  /** `From<LangError>`: wrap the dispatch failure unchanged. */
  function FromLangError(e: LangError): (r: GroupsError)
    ensures r.ContractCall? && r.IsTransport()
    ensures r.lang == e
  {
    ContractCall(e)
  }

  /** Neither conversion yields a business-rule error, so transport failures stay recognisable. */
  lemma ConversionsAreTransport(e: EnvError, l: LangError)
    ensures !FromEnvError(e).NotFound? && !FromEnvError(e).Unauthorised? && !FromEnvError(e).UnprocessableEntity?
    ensures !FromEnvError(e).GroupDisabled? && !FromEnvError(e).NotAMember?
    ensures !FromLangError(l).NotFound? && !FromLangError(l).Unauthorised? && !FromLangError(l).UnprocessableEntity?
    ensures !FromLangError(l).GroupDisabled? && !FromLangError(l).NotAMember?
  {
  }

  /** The three failures of `validate_membership` are told apart from each other, whatever the entity name. */
  lemma MembershipFailuresDistinct(entity: string)
    ensures GroupDisabled != NotAMember
    ensures GroupDisabled != NotFound(entity) && NotAMember != NotFound(entity)
  {
  }
}
