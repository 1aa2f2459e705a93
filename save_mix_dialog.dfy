/** components/mixer/SaveMixDialog.tsx: the form that names a new mix and
    tags it. The component's state variables are the fields of a class; the
    `onSave` callback is recorded as the list of calls it received. */
module SaveMixDialogs {
  import opened Text
  import opened Wrappers
  import opened Lists
  import opened Forms

  /** The most tags a mix may carry. */
  const MaxTags: nat := 10

  /** The tags offered as one-click suggestions (SaveMixDialog.tsx:180). */
  const Suggestions: seq<string> := ["Focus", "Sleep", "Nature", "Meditation", "Work"]

  /** The text the dialog shows for a refused name. */
  function Message(e: NameError): string
  {
    match e
    case Blank => "Mix name is required"
    case TooLong => "Mix name must be 100 characters or less"
  }

  /** One call of `onSave(name, tags)`. */
  datatype SaveCall = SaveCall(name: string, tags: seq<string>)

  /** What the tag list always satisfies: no tag twice, and at most ten. */
  predicate TagsOk(tags: seq<string>)
  {
    Distinct(tags) && |tags| <= MaxTags
  }

  /** The tag list after offering `tag`: it is appended only when absent and
      fewer than ten tags are present (SaveMixDialog.tsx:43, 183-187). */
  function WithTag(tags: seq<string>, tag: string): (r: seq<string>)
    ensures TagsOk(tags) ==> TagsOk(r)
    ensures tag in r <==> tag in tags || |tags| < MaxTags
    ensures r == tags || r == tags + [tag]
  {
    if tag !in tags && |tags| < MaxTags then tags + [tag] else tags
  }

  /** Whether a tag is not `tag`. */
  function IsNot(tag: string): string -> bool
  {
    (t: string) => t != tag
  }

  /** The tag list after removing `tag`: every occurrence goes, the others
      keep their order (SaveMixDialog.tsx:49-51). */
  function WithoutTag(tags: seq<string>, tag: string): (r: seq<string>)
    ensures tag !in r
    ensures forall t :: t in tags && t != tag ==> t in r
    ensures forall t :: t in r ==> t in tags
    ensures IsSubsequence(r, tags)
    ensures TagsOk(tags) ==> TagsOk(r)
  {
    FilterDistinctIfOk(tags, tag);
    FilterIsSubsequence(tags, IsNot(tag));
    Filter(tags, IsNot(tag))
  }

  lemma FilterDistinctIfOk(tags: seq<string>, tag: string)
    ensures Distinct(tags) ==> Distinct(Filter(tags, IsNot(tag)))
  {
    if Distinct(tags) {
      FilterDistinct(tags, IsNot(tag));
    }
  }

  /** Removing a tag that was just added restores the list. */
  lemma {:induction false} RemoveUndoesAdd(tags: seq<string>, tag: string)
    requires tag !in tags
    ensures WithoutTag(WithTag(tags, tag), tag) == tags
  {
    FilterAppend(tags, [tag], IsNot(tag));
    FilterKeepsAll(tags, IsNot(tag));
    assert Filter([tag], IsNot(tag)) == [];
  }

  class SaveMixDialog {
    var mixName: string
    var tags: seq<string>
    var tagInput: string
    var error: Option<NameError>
    var saved: seq<SaveCall>

    ghost predicate Valid()
      reads this
    {
      TagsOk(tags)
    }

    /** The dialog as first rendered, with `defaultName` in the name field
        (SaveMixDialog.tsx:13-17). */
    constructor (defaultName: string)
      ensures Valid()
      ensures mixName == defaultName && tags == [] && tagInput == ""
      ensures error.None? && saved == []
    {
      mixName := defaultName;
      tags := [];
      tagInput := "";
      error := None;
      saved := [];
    }

    /** Typing in the name field clears the error (SaveMixDialog.tsx:105-108). */
    method EditName(value: string)
      modifies this`mixName, this`error
      ensures mixName == value && error.None?
    {
      mixName := value;
      error := None;
    }

    /** Typing in the tag field (SaveMixDialog.tsx:132). */
    method EditTagInput(value: string)
      modifies this`tagInput
      ensures tagInput == value
    {
      tagInput := value;
    }

    /** `handleSave()` (SaveMixDialog.tsx:19-39): a refused name sets the
        error and nothing else; an accepted one is handed to `onSave`
        trimmed, with the tags, and the form is reset. */
    method HandleSave()
      requires Valid()
      modifies this`mixName, this`tags, this`tagInput, this`error, this`saved
      ensures Valid()
      ensures NameCheck(old(mixName)).Some? ==>
        && error == NameCheck(old(mixName))
        && mixName == old(mixName) && tags == old(tags) && tagInput == old(tagInput)
        && saved == old(saved)
      ensures NameCheck(old(mixName)).None? ==>
        && saved == old(saved) + [SaveCall(Trim(old(mixName)), old(tags))]
        && mixName == "" && tags == [] && tagInput == "" && error.None?
    {
      var check := NameCheck(mixName);
      if check.Some? {
        error := check;
        return;
      }
      var call := SaveCall(Trim(mixName), tags);
      saved := saved + [call];
      mixName := "";
      tags := [];
      tagInput := "";
      error := None;
    }

    /** `handleAddTag()` (SaveMixDialog.tsx:41-47): the trimmed input is
        added when it is non-empty, new and there is room, and only then is
        the input cleared. */
    method HandleAddTag()
      requires Valid()
      modifies this`tags, this`tagInput
      ensures Valid()
      ensures var tag := Trim(old(tagInput));
        if tag != [] && tag !in old(tags) && |old(tags)| < MaxTags then
          tags == old(tags) + [tag] && tagInput == ""
        else
          tags == old(tags) && tagInput == old(tagInput)
    {
      var tag := Trim(tagInput);
      if tag != [] && tag !in tags && |tags| < MaxTags {
        tags := WithTag(tags, tag);
        tagInput := "";
      }
    }

    /** `handleRemoveTag(tag)` (SaveMixDialog.tsx:49-51). */
    method HandleRemoveTag(tag: string)
      requires Valid()
      modifies this`tags
      ensures Valid()
      ensures tags == WithoutTag(old(tags), tag)
    {
      tags := WithoutTag(tags, tag);
    }

    /** A click on a suggested tag (SaveMixDialog.tsx:183-187). */
    method ClickSuggestion(tag: string)
      requires Valid()
      modifies this`tags
      ensures Valid()
      ensures tags == WithTag(old(tags), tag)
    {
      tags := WithTag(tags, tag);
    }

    /** `handleKeyDown(e)` of the name field (SaveMixDialog.tsx:53-62): Enter
        adds a tag when the tag field holds more than white space, and
        otherwise saves; other keys do nothing. */
    method HandleKeyDown(key: Key)
      requires Valid()
      modifies this`mixName, this`tags, this`tagInput, this`error, this`saved
      ensures Valid()
      ensures key != Enter ==>
        mixName == old(mixName) && tags == old(tags) && tagInput == old(tagInput)
        && error == old(error) && saved == old(saved)
      ensures key == Enter && !IsBlank(old(tagInput)) ==>
        && mixName == old(mixName) && error == old(error) && saved == old(saved)
        && (var tag := Trim(old(tagInput));
            if tag !in old(tags) && |old(tags)| < MaxTags then
              tags == old(tags) + [tag] && tagInput == ""
            else
              tags == old(tags) && tagInput == old(tagInput))
      ensures key == Enter && IsBlank(old(tagInput)) && NameCheck(old(mixName)).None? ==>
        && saved == old(saved) + [SaveCall(Trim(old(mixName)), old(tags))]
        && mixName == "" && tags == [] && tagInput == "" && error.None?
      ensures key == Enter && IsBlank(old(tagInput)) && NameCheck(old(mixName)).Some? ==>
        && saved == old(saved) && error == NameCheck(old(mixName))
        && mixName == old(mixName) && tags == old(tags) && tagInput == old(tagInput)
    {
      if key == Enter {
        if !IsBlank(tagInput) {
          HandleAddTag();
        } else {
          HandleSave();
        }
      }
    }

    /** The tag field's own Enter handler (SaveMixDialog.tsx:133-138). */
    method HandleTagKeyDown(key: Key)
      requires Valid()
      modifies this`tags, this`tagInput
      ensures Valid()
      ensures key != Enter ==> tags == old(tags) && tagInput == old(tagInput)
      ensures key == Enter ==>
        var tag := Trim(old(tagInput));
        if tag != [] && tag !in old(tags) && |old(tags)| < MaxTags then
          tags == old(tags) + [tag] && tagInput == ""
        else
          tags == old(tags) && tagInput == old(tagInput)
    {
      if key == Enter {
        HandleAddTag();
      }
    }
  }
}
