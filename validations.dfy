/** The Hub's presence validator. */
module Validations {
  import opened Primitives
  import opened Text
  import opened HubErrors

  /** `validate_presence_of`: fail with "<field> can't be blank" when the string is empty. */
  function ValidatePresenceOf(s: string, fieldName: string): (r: Result<(), HubError>)
    ensures r.Ok? <==> s != []
    ensures r.Err? ==> r.error == HubError.UnprocessableEntity(fieldName + " can't be blank")
  {
    if s == [] then Err(HubError.UnprocessableEntity(fieldName + " can't be blank")) else Ok(())
  }

  /** The message names the field only: any two blank failures for one field are equal. */
  lemma BlankMessageIgnoresInput(s1: string, s2: string, fieldName: string)
    requires ValidatePresenceOf(s1, fieldName).Err? && ValidatePresenceOf(s2, fieldName).Err?
    ensures ValidatePresenceOf(s1, fieldName) == ValidatePresenceOf(s2, fieldName)
  {
  }

  /**
   * The validator does not trim: a whitespace-only string passes. Callers that
   * trim first reject exactly the all-whitespace inputs.
   */
  lemma PresenceAfterTrim(s: string, fieldName: string)
    ensures s != [] ==> ValidatePresenceOf(s, fieldName).Ok?
    ensures ValidatePresenceOf(Trim(s), fieldName).Err? <==> AllWhitespace(s)
  {
    TrimEmptyIffAllWhitespace(s);
  }
}
