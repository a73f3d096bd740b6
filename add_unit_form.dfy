/**
 * The "add unit" form (`AddUnitForm`): one name, a duplicate-name check that
 * runs after typing pauses, and the submit guards.
 */
module AddUnitForm {
  import opened Wrappers
  import Text
  import NameCheck

  const Texts := NameCheck.Messages("Unit", "", "Unit name is required")

  /** The submit button's `disabled`: a blank or flagged name, or a request pending. */
  predicate Disabled(name: string, fieldError: Option<string>, pending: bool)
  {
    NameCheck.Blocked(name, fieldError) || pending
  }

  /** With no request pending, the button is enabled exactly when submitting sends. */
  lemma EnabledIffSubmits(name: string, fieldError: Option<string>)
    ensures !Disabled(name, fieldError, false) <==> NameCheck.Submit(name, fieldError, Texts).Accepted?
  {
    NameCheck.BlockedIffRefused(name, fieldError, Texts);
  }

  class Form {
    var name: string
    var fieldError: Option<string>

    constructor ()
      ensures name == "" && fieldError.None?
    {
      name, fieldError := "", None;
    }

    method SetName(v: string)
      modifies this
      ensures name == v && fieldError == old(fieldError)
    {
      name := v;
    }

    /** The check, once typing has paused, against the units listed. */
    method Check(names: seq<string>)
      modifies this
      ensures fieldError == NameCheck.CheckName(names, name, Texts) && name == old(name)
    {
      fieldError := NameCheck.CheckName(names, name, Texts);
    }

    /** `handleSubmit`: the request to send, if any; a blank name sets its error. */
    method HandleSubmit() returns (request: Option<string>)
      modifies this
      ensures var o := NameCheck.Submit(old(name), old(fieldError), Texts);
        (request.Some? <==> o.Accepted?) && (o.Accepted? ==> request == Some(o.name)) &&
        fieldError == (if o.Refused? then o.fieldError else old(fieldError))
      ensures name == old(name)
    {
      var o := NameCheck.Submit(name, fieldError, Texts);
      if o.Refused? {
        fieldError := o.fieldError;
        request := None;
      } else {
        request := Some(o.name);
      }
    }

    /** The request succeeded: the form is emptied. */
    method Succeeded()
      modifies this
      ensures name == "" && fieldError.None?
    {
      name, fieldError := "", None;
    }
  }
}
