/**
 * What the category and unit forms share: the duplicate-name check they run
 * while the name is typed (the trimmed input against the names already
 * listed, ignoring case) and the guards on submitting a name. The two forms
 * differ only in their messages.
 */
module NameCheck {
  import opened Wrappers
  import Text

  /** `names.some(n => n.toLowerCase() === input.trim().toLowerCase())`. */
  predicate Taken(names: seq<string>, input: string)
  {
    exists i :: 0 <= i < |names| && Text.Lower(names[i]) == Text.Lower(Text.Trim(input))
  }

  /** An error message is shown, and blocks submitting, when it is present and not empty. */
  predicate HasError(e: Option<string>)
  {
    e.Some? && e.value != ""
  }

  /** The check reads the input trimmed: surrounding spaces never change its answer. */
  lemma TakenIgnoresSpaces(names: seq<string>, input: string)
    ensures Taken(names, Text.Trim(input)) <==> Taken(names, input)
  {
    Text.TrimIdempotent(input);
  }

  /** Once a name is listed, typing it again, with any surrounding spaces, is flagged. */
  lemma ListedNameIsTaken(names: seq<string>, input: string)
    ensures Taken(names + [Text.Trim(input)], input)
  {
    var all := names + [Text.Trim(input)];
    Text.TrimIdempotent(input);
    assert all[|names|] == Text.Trim(input);
  }

  /** A form's texts: the entity its duplicate message names, what follows the message, and the blank-name error. */
  datatype Messages = Messages(entity: string, suffix: string, required: string)

  /** `<Entity> "<name>" already exists<suffix>`. */
  function Duplicate(m: Messages, trimmed: string): string
  {
    m.entity + " \"" + trimmed + "\" already exists" + m.suffix
  }

  /** The debounced check: no error for a blank name, a message naming a taken one. */
  function CheckName(names: seq<string>, name: string, m: Messages): (r: Option<string>)
    ensures r.Some? <==> !Text.IsBlank(name) && Taken(names, name)
    ensures r.Some? ==> r.value == Duplicate(m, Text.Trim(name)) && HasError(r)
  {
    Text.TrimEmptyIffBlank(name);
    if Text.Trim(name) == "" then None
    else if Taken(names, name) then Some(Duplicate(m, Text.Trim(name)))
    else None
  }

  /** What pressing submit does with the name: set an error and stop, stop, or go on with the trimmed name. */
  datatype Verdict = Refused(fieldError: Option<string>) | Accepted(name: string)

  function Submit(name: string, fieldError: Option<string>, m: Messages): (r: Verdict)
    ensures Text.IsBlank(name) ==> r == Refused(Some(m.required))
    ensures !Text.IsBlank(name) && HasError(fieldError) ==> r == Refused(fieldError)
    ensures r.Accepted? <==> !Text.IsBlank(name) && !HasError(fieldError)
    ensures r.Accepted? ==> r.name == Text.Trim(name) && r.name != ""
  {
    Text.TrimEmptyIffBlank(name);
    if Text.Trim(name) == "" then Refused(Some(m.required))
    else if HasError(fieldError) then Refused(fieldError)
    else Accepted(Text.Trim(name))
  }

  /** The part of the submit button's `disabled` that depends on the name: blank, or flagged. */
  predicate Blocked(name: string, fieldError: Option<string>)
  {
    Text.Trim(name) == "" || HasError(fieldError)
  }

  /** The button is blocked exactly when submitting would not go on. */
  lemma BlockedIffRefused(name: string, fieldError: Option<string>, m: Messages)
    ensures !Blocked(name, fieldError) <==> Submit(name, fieldError, m).Accepted?
  {
    Text.TrimEmptyIffBlank(name);
  }

  /** A name accepted right after the check ran on it is not a listed name, in any case. */
  lemma CheckedSubmitIsNew(names: seq<string>, name: string, m: Messages)
    requires Submit(name, CheckName(names, name, m), m).Accepted?
    ensures forall i :: 0 <= i < |names| ==> Text.Lower(names[i]) != Text.Lower(Submit(name, CheckName(names, name, m), m).name)
  {
    Text.TrimIdempotent(name);
    TakenIgnoresSpaces(names, name);
  }
}
