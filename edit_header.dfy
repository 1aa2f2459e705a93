/** components/edit/EditHeader.tsx: the in-place editor of a saved mix's
    name. The component's state variables are the fields of a class, the
    `mixName` property is a field its owner sets, and the `onNameChange`
    callback is recorded as the list of names it received. */
module EditHeaders {
  import opened Text
  import opened Wrappers
  import opened Forms

  /** The text the header shows for a refused name. */
  function Message(e: NameError): string
  {
    match e
    case Blank => "Mix name cannot be empty"
    case TooLong => "Mix name must be 100 characters or less"
  }

  class EditHeader {
    var mixName: string
    var isEditing: bool
    var localName: string
    var error: Option<NameError>
    var renamed: seq<string>

    /** The header as first rendered for `mixName` (EditHeader.tsx:12-15). */
    constructor (mixName: string)
      ensures this.mixName == mixName && localName == mixName
      ensures !isEditing && error.None? && renamed == []
    {
      this.mixName := mixName;
      localName := mixName;
      isEditing := false;
      error := None;
      renamed := [];
    }

    /** The owner renders the header with the prop `name`. The effect of
        EditHeader.tsx:18-20 runs only when the prop differs from the one of
        the previous render, and then copies it into the field; otherwise
        the field keeps what was typed. */
    method SyncName(name: string)
      modifies this`mixName, this`localName
      ensures mixName == name
      ensures name != old(mixName) ==> localName == name
      ensures name == old(mixName) ==> localName == old(localName)
    {
      if name != mixName {
        mixName := name;
        localName := name;
      }
    }

    /** The edit button (EditHeader.tsx:106). */
    method StartEditing()
      modifies this`isEditing
      ensures isEditing
    {
      isEditing := true;
    }

    /** Typing in the field clears the error (EditHeader.tsx:67-70). */
    method EditName(value: string)
      modifies this`localName, this`error
      ensures localName == value && error.None?
    {
      localName := value;
      error := None;
    }

    /** `handleSaveName()` (EditHeader.tsx:22-36): a refused name sets the
        error and the editor stays open; an accepted one is handed to
        `onNameChange` trimmed, and the editor closes without an error. */
    method HandleSaveName()
      modifies this`isEditing, this`error, this`renamed
      ensures NameCheck(localName).Some? ==>
        error == NameCheck(localName) && isEditing == old(isEditing) && renamed == old(renamed)
      ensures NameCheck(localName).None? ==>
        renamed == old(renamed) + [Trim(localName)] && !isEditing && error.None?
    {
      var check := NameCheck(localName);
      if check.Some? {
        error := check;
        return;
      }
      var name := Trim(localName);
      renamed := renamed + [name];
      isEditing := false;
      error := None;
    }

    /** `handleCancel()` (EditHeader.tsx:38-42): the typed name is dropped. */
    method HandleCancel()
      modifies this`localName, this`isEditing, this`error
      ensures localName == mixName && !isEditing && error.None?
    {
      localName := mixName;
      isEditing := false;
      error := None;
    }

    /** `handleKeyDown(e)` (EditHeader.tsx:44-50): Enter saves, Escape
        cancels, any other key changes nothing. */
    method HandleKeyDown(key: Key)
      modifies this`localName, this`isEditing, this`error, this`renamed
      ensures key == Enter && NameCheck(old(localName)).None? ==>
        renamed == old(renamed) + [Trim(old(localName))] && !isEditing && error.None?
      ensures key == Enter && NameCheck(old(localName)).Some? ==>
        renamed == old(renamed) && error == NameCheck(old(localName)) && isEditing == old(isEditing)
      ensures key == Enter ==> localName == old(localName)
      ensures key == Escape ==>
        localName == mixName && !isEditing && error.None? && renamed == old(renamed)
      ensures key == OtherKey ==>
        localName == old(localName) && isEditing == old(isEditing)
        && error == old(error) && renamed == old(renamed)
    {
      if key == Enter {
        HandleSaveName();
      } else if key == Escape {
        HandleCancel();
      }
    }
  }
}
