/**
 * The Groups error as it crosses from the Groups contract to the Hub. SCALE
 * encodes an enum value as the variant's declaration index followed by its
 * fields; the receiver reads the index against its own declaration. The Hub
 * reads the Groups contract's seven-variant error with a five-variant copy
 * whose order differs, so most Groups errors arrive as a different error or
 * not at all. `DecodeGroupsError` is the reading the Hub evidently intends:
 * the Groups contract's own declaration.
 */
module Boundary {
  import opened Primitives
  import opened InkEnv
  import GE = GroupsErrors
  import opened HubErrors

  /** What follows the variant index: nothing, a string, or a `LangError`. */
  datatype Payload = NoPayload | Text(text: string) | Lang(lang: LangError)

  /** An encoded enum value: the variant index byte and the variant's field. */
  datatype Wire = Wire(index: U8, payload: Payload)

  /** The encoding of a Groups error: declaration index 0..6 and its field. */
  function EncodeGroupsError(e: GE.GroupsError): (w: Wire)
    ensures w.index <= 6
    ensures w.payload.NoPayload? <==> e.GroupDisabled? || e.NotAMember? || e.Unauthorised?
    ensures w.payload.Lang? <==> e.ContractCall?
  {
    match e
    case ContractCall(l) => Wire(0, Lang(l))
    case GroupDisabled => Wire(1, NoPayload)
    case InkEnvError(t) => Wire(2, Text(t))
    case NotAMember => Wire(3, NoPayload)
    case NotFound(t) => Wire(4, Text(t))
    case Unauthorised => Wire(5, NoPayload)
    case UnprocessableEntity(t) => Wire(6, Text(t))
  }

  /**
   * Reading against the Groups contract's own declaration; `None` when the
   * index is out of range or the field is not the declared one.
   */
  function DecodeGroupsError(w: Wire): (r: Option<GE.GroupsError>)
    ensures w.index > 6 ==> r.None?
  {
    match (w.index, w.payload)
    case (0, Lang(l)) => Some(GE.ContractCall(l))
    case (1, NoPayload) => Some(GE.GroupDisabled)
    case (2, Text(t)) => Some(GE.InkEnvError(t))
    case (3, NoPayload) => Some(GE.NotAMember)
    case (4, Text(t)) => Some(GE.NotFound(t))
    case (5, NoPayload) => Some(GE.Unauthorised)
    case (6, Text(t)) => Some(GE.UnprocessableEntity(t))
    case _ => None
  }

  /**
   * Reading against the Hub's five-variant copy, as written; `None` is a
   * failed decode, which makes the Hub's cross-contract call trap.
   */
  function DecodeMirror(w: Wire): (r: Option<MirrorGroupsError>)
    ensures w.index > 4 ==> r.None?
  {
    match (w.index, w.payload)
    case (0, Lang(l)) => Some(MirrorGroupsError.ContractCall(l))
    case (1, Text(t)) => Some(MirrorGroupsError.InkEnvError(t))
    case (2, Text(t)) => Some(MirrorGroupsError.NotFound(t))
    case (3, NoPayload) => Some(MirrorGroupsError.Unauthorised)
    case (4, Text(t)) => Some(MirrorGroupsError.UnprocessableEntity(t))
    case _ => None
  }

  /** The mirror variant carrying the same name and field as a Groups error, if there is one. */
  predicate SameMeaning(m: MirrorGroupsError, e: GE.GroupsError) {
    match e
    case ContractCall(l) => m == MirrorGroupsError.ContractCall(l)
    case InkEnvError(t) => m == MirrorGroupsError.InkEnvError(t)
    case NotFound(t) => m == MirrorGroupsError.NotFound(t)
    case Unauthorised => m == MirrorGroupsError.Unauthorised
    case UnprocessableEntity(t) => m == MirrorGroupsError.UnprocessableEntity(t)
    case _ => false
  }

  /** As written: what the Hub reads for each failure `validate_membership` can return. */
  lemma MirrorMisreadsMembershipErrors(entity: string, text: string)
    ensures DecodeMirror(EncodeGroupsError(GE.NotFound(entity))) == Some(MirrorGroupsError.UnprocessableEntity(entity))
    ensures DecodeMirror(EncodeGroupsError(GE.NotAMember)) == Some(MirrorGroupsError.Unauthorised)
    ensures DecodeMirror(EncodeGroupsError(GE.GroupDisabled)) == None
    ensures DecodeMirror(EncodeGroupsError(GE.InkEnvError(text))) == Some(MirrorGroupsError.NotFound(text))
    ensures DecodeMirror(EncodeGroupsError(GE.Unauthorised)) == None
    ensures DecodeMirror(EncodeGroupsError(GE.UnprocessableEntity(text))) == None
  {
  }

  /** As written, only a dispatch failure reaches the Hub as itself. */
  lemma MirrorFaithfulOnlyForContractCall(e: GE.GroupsError)
    ensures (DecodeMirror(EncodeGroupsError(e)).Some? && SameMeaning(DecodeMirror(EncodeGroupsError(e)).value, e))
            <==> e.ContractCall?
  {
  }

  /** Corrected: reading with the Groups contract's own declaration gives back every error. */
  lemma DecodeEncodeRoundTrip(e: GE.GroupsError)
    ensures DecodeGroupsError(EncodeGroupsError(e)) == Some(e)
  {
  }

  /** Corrected: anything that decodes is the encoding of what it decodes to. */
  lemma EncodeDecodeRoundTrip(w: Wire)
    ensures DecodeGroupsError(w).Some? ==> EncodeGroupsError(DecodeGroupsError(w).value) == w
  {
  }

  /**
   * Corrected: the Hub wraps the decoded Groups error, so each membership
   * failure reaches the Hub's caller as itself.
   */
  lemma MembershipFailureReachesHub(e: GE.GroupsError)
    ensures DecodeGroupsError(EncodeGroupsError(e)).Some?
    ensures FromGroupsError(DecodeGroupsError(EncodeGroupsError(e)).value) == HubError.AZGroupsError(e)
  {
    DecodeEncodeRoundTrip(e);
  }
}
