/**
 * The "add category" form (`AddCategoryForm`): a name and a description, a
 * duplicate-name check that runs after typing pauses, and the submit guards.
 */
module AddCategoryForm {
  import opened Wrappers
  import Text
  import NameCheck

  /** `CreateCategoryPayload`. */
  datatype Payload = Payload(name: string, description: string)

  const Texts := NameCheck.Messages("Category", " in the system", "Category name is required")

  /** What pressing submit does: set an error and stop, stop, or send the trimmed fields. */
  datatype Outcome = Refused(fieldError: Option<string>) | Create(payload: Payload)

  /** The name's verdict, with the trimmed description sent beside an accepted name. */
  function Submit(name: string, description: string, fieldError: Option<string>): (r: Outcome)
    ensures Text.IsBlank(name) ==> r == Refused(Some(Texts.required))
    ensures !Text.IsBlank(name) && NameCheck.HasError(fieldError) ==> r == Refused(fieldError)
    ensures r.Create? <==> !Text.IsBlank(name) && !NameCheck.HasError(fieldError)
    ensures r.Create? ==> r.payload == Payload(Text.Trim(name), Text.Trim(description)) && r.payload.name != ""
  {
    match NameCheck.Submit(name, fieldError, Texts)
    case Refused(e) => Refused(e)
    case Accepted(n) => Create(Payload(n, Text.Trim(description)))
  }

  /** `isDisabled`: a blank or flagged name, a request pending, or the check still running. */
  predicate Disabled(name: string, fieldError: Option<string>, pending: bool, validating: bool)
  {
    NameCheck.Blocked(name, fieldError) || pending || validating
  }

  /** With no request pending and no check running, the button is enabled exactly when submitting sends. */
  lemma EnabledIffSubmits(name: string, description: string, fieldError: Option<string>)
    ensures !Disabled(name, fieldError, false, false) <==> Submit(name, description, fieldError).Create?
  {
    NameCheck.BlockedIffRefused(name, fieldError, Texts);
  }

  /** A name sent right after the check ran on it is not a listed name, in any case. */
  lemma CheckedSubmitIsNew(names: seq<string>, name: string, description: string)
    requires Submit(name, description, NameCheck.CheckName(names, name, Texts)).Create?
    ensures var p := Submit(name, description, NameCheck.CheckName(names, name, Texts)).payload;
      forall i :: 0 <= i < |names| ==> Text.Lower(names[i]) != Text.Lower(p.name)
  {
    NameCheck.CheckedSubmitIsNew(names, name, Texts);
  }

  class Form {
    var name: string
    var description: string
    var fieldError: Option<string>
    var isValidating: bool

    constructor ()
      ensures name == "" && description == "" && fieldError.None? && !isValidating
    {
      name, description, fieldError, isValidating := "", "", None, false;
    }

    /** `handleInputChange` on the name field. */
    method SetName(v: string)
      modifies this
      ensures name == v && description == old(description) && fieldError == old(fieldError) && isValidating == old(isValidating)
    {
      name := v;
    }

    /** `handleInputChange` on the description field. */
    method SetDescription(v: string)
      modifies this
      ensures description == v && name == old(name) && fieldError == old(fieldError) && isValidating == old(isValidating)
    {
      description := v;
    }

    /** The check, once typing has paused, against the categories listed. */
    method Check(names: seq<string>)
      modifies this
      ensures fieldError == NameCheck.CheckName(names, name, Texts) && !isValidating
      ensures name == old(name) && description == old(description)
    {
      fieldError := NameCheck.CheckName(names, name, Texts);
      isValidating := false;
    }

    /** `handleSubmit`: the request to send, if any; a blank name sets its error. */
    method HandleSubmit() returns (request: Option<Payload>)
      modifies this
      ensures var o := Submit(old(name), old(description), old(fieldError));
        (request.Some? <==> o.Create?) && (o.Create? ==> request == Some(o.payload)) &&
        fieldError == (if o.Refused? then o.fieldError else old(fieldError))
      ensures name == old(name) && description == old(description) && isValidating == old(isValidating)
    {
      var o := Submit(name, description, fieldError);
      if o.Refused? {
        fieldError := o.fieldError;
        request := None;
      } else {
        request := Some(o.payload);
      }
    }

    /** The request succeeded: the form is emptied. */
    method Succeeded()
      modifies this
      ensures name == "" && description == "" && fieldError.None? && isValidating == old(isValidating)
    {
      name, description, fieldError := "", "", None;
    }
  }
}
