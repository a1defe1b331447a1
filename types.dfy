/** Types shared by every part of the vCard engine: the error codes every operation
    returns, the Option/Result wrappers that stand for NULL pointers and error returns,
    and the record model (Parameter, Property, DateTime). */
module VCardTypes {

  /** The library's flat error enumeration (VCardErrorCode). */
  datatype ErrorCode = Ok | InvFile | InvCard | InvProp | InvDt | WriteError | OtherError

  /** A pointer that may be NULL. */
  datatype Option<+T> = None | Some(value: T)

  /** A value or the error code that replaced it. */
  datatype Result<+T> = Success(value: T) | Failure(error: ErrorCode)

  /** A `name=value` modifier of a property (e.g. TYPE=work). */
  datatype Parameter = Parameter(name: string, value: string)

  /** One content line's payload. `group` is "" when the line had no group. */
  datatype Property = Property(name: string, group: string, parameters: seq<Parameter>, values: seq<string>)

  /** The BDAY/ANNIVERSARY record, kept as the source keeps it: a shape flag `isText`
      beside always-present date, time and text fields, so that the ill-shaped
      combinations the validator rejects can be represented. */
  datatype DateTime = DateTime(UTC: bool, isText: bool, date: string, time: string, text: string)

  /** How a reader with a known scanning or matching defect behaves: as the
      source does, or with the defect corrected. Every operation the library
      exposes uses `AsWritten`; `Corrected` states what was evidently intended. */
  datatype Reading = AsWritten | Corrected
}
