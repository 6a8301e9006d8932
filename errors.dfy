/** The exceptions the task core raises, one constructor per distinct condition. */
module Errors {

  datatype Error =
    /** ValueError from `build_from_key`: the stored key is not a root key. */
    | KeyHasParent
    /** ValueError from `build_from_key`: the stored key's kind is not the expected one. */
    | WrongKind(kind: string)
    /** ValueError from `TaskName`: empty value. */
    | NameEmpty
    /** ValueError from `TaskName`: more than `MAX_LENGTH` characters. */
    | NameTooLong
    /** ValueError from `TaskName`: the whole value is one whitespace character. */
    | NameOnlySpace
    /** KeyError: a stored document lacks a property. */
    | MissingField(field: string)
    /** TypeValidationError (or a failed attribute access): a property holds a value of the wrong type. */
    | TypeMismatch(field: string)
}
