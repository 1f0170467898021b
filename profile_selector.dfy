/** The profile-creation form of src/components/ProfileSelector.tsx: four state cells, the
    guard of `handleCreateProfile` and the Create button's enabling. The time label the list
    shows is `TimeFormat.FormatTime`. The `onCreateProfile` callback is the request a
    handler returns. */
module ProfileSelector {

  import opened Wrappers
  import Text
  import Classes

  /** What `onCreateProfile` is called with. */
  datatype NewProfile = NewProfile(name: string, selectedClass: Classes.CharacterClass)

  /** The guard and the argument of `handleCreateProfile`: a request only when the trimmed
      name is non-empty and a class is chosen, carrying the trimmed name. */
  function CreateRequest(name: string, selectedClass: Option<Classes.CharacterClass>)
    : Option<NewProfile>
  {
    if Text.Trim(name) != "" && selectedClass.Some? then
      Some(NewProfile(Text.Trim(name), selectedClass.value))
    else None
  }

  /** The Create button: disabled while the trimmed name is empty. */
  predicate CreateEnabled(name: string)
  {
    Text.Trim(name) != ""
  }

  /** The form's state cells. */
  class CreateProfileForm {
    var showCreateForm: bool
    var newProfileName: string
    var showClassSelector: bool
    var selectedClass: Option<Classes.CharacterClass>

    /** Closed, empty, no class chosen. */
    constructor()
      ensures !showCreateForm && newProfileName == "" && !showClassSelector && selectedClass == None
    {
      showCreateForm := false;
      newProfileName := "";
      showClassSelector := false;
      selectedClass := None;
    }

    /** The "Create New Profile" button: open the form with the class picker. */
    method Open()
      modifies this
      ensures showCreateForm && showClassSelector
      ensures newProfileName == old(newProfileName) && selectedClass == old(selectedClass)
    {
      showCreateForm := true;
      showClassSelector := true;
    }

    /** The name field's `onChange`. */
    method EditName(text: string)
      modifies this
      ensures newProfileName == text
      ensures showCreateForm == old(showCreateForm) && showClassSelector == old(showClassSelector)
      ensures selectedClass == old(selectedClass)
    {
      newProfileName := text;
    }

    /** The class picker's `onSelectClass` (and the Change button, with none). */
    method SelectClass(choice: Option<Classes.CharacterClass>)
      modifies this
      ensures selectedClass == choice
      ensures showCreateForm == old(showCreateForm) && showClassSelector == old(showClassSelector)
      ensures newProfileName == old(newProfileName)
    {
      selectedClass := choice;
    }

    /** `handleCreateProfile`, from the button or the Enter key: when the guard holds, request
        the profile and reset all four cells; otherwise do nothing. */
    method HandleCreateProfile() returns (request: Option<NewProfile>)
      modifies this
      ensures request == CreateRequest(old(newProfileName), old(selectedClass))
      ensures request.Some? ==>
        newProfileName == "" && selectedClass == None && !showCreateForm && !showClassSelector
      ensures request.None? ==>
        newProfileName == old(newProfileName) && selectedClass == old(selectedClass)
        && showCreateForm == old(showCreateForm) && showClassSelector == old(showClassSelector)
    {
      request := None;
      var trimmed := Text.Trim(newProfileName);
      if trimmed != "" && selectedClass.Some? {
        request := Some(NewProfile(trimmed, selectedClass.value));
        newProfileName := "";
        selectedClass := None;
        showCreateForm := false;
        showClassSelector := false;
      }
    }

    /** The Cancel button: the same reset without a request. */
    method Cancel()
      modifies this
      ensures newProfileName == "" && selectedClass == None && !showCreateForm && !showClassSelector
    {
      showCreateForm := false;
      newProfileName := "";
      selectedClass := None;
      showClassSelector := false;
    }
  }

  /** A request is made exactly when the trimmed name is non-empty and a class is chosen; it
      carries the trimmed name, and trimming that name again changes nothing. */
  lemma CreateRequestFacts(name: string, selectedClass: Option<Classes.CharacterClass>)
    ensures CreateRequest(name, selectedClass).Some? <==> Text.Trim(name) != "" && selectedClass.Some?
    ensures CreateRequest(name, selectedClass).Some? ==>
      var r := CreateRequest(name, selectedClass).value;
      r.name == Text.Trim(name) && Text.Trim(r.name) == r.name && r.selectedClass == selectedClass.value
  {
    Text.TrimIdempotent(name);
  }

  /** The requested name has no white space at either end. */
  lemma CreatedNameTrimmed(name: string, selectedClass: Option<Classes.CharacterClass>)
    requires CreateRequest(name, selectedClass).Some?
    ensures var n := CreateRequest(name, selectedClass).value.name;
      |n| > 0 && !Text.IsJsWhitespace(n[0]) && !Text.IsJsWhitespace(n[|n| - 1])
  {
    Text.TrimFacts(name);
  }

  /** A name of white space only never creates a profile and leaves the button disabled;
      whenever a request is made, the button was enabled. */
  lemma WhitespaceNameNeverCreates(name: string, selectedClass: Option<Classes.CharacterClass>)
    ensures (forall i :: 0 <= i < |name| ==> Text.IsJsWhitespace(name[i])) ==>
      CreateRequest(name, selectedClass) == None && !CreateEnabled(name)
    ensures CreateRequest(name, selectedClass).Some? ==> CreateEnabled(name)
    ensures CreateEnabled(name) <==> exists i :: 0 <= i < |name| && !Text.IsJsWhitespace(name[i])
  {
    Text.TrimFacts(name);
  }
}
