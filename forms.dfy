/** What the two mix-name forms share (components/mixer/SaveMixDialog.tsx and
    components/edit/EditHeader.tsx): the rule a typed name must pass before
    it is used, and the keys their handlers tell apart. */
module Forms {
  import opened Text
  import opened Wrappers

  /** Why a typed name is refused. */
  datatype NameError = Blank | TooLong

  /** The most UTF-16 code units a name may have, counted before trimming. */
  const MaxNameLength: nat := 100

  /** The name check of both forms (SaveMixDialog.tsx:21-29,
      EditHeader.tsx:22-31): a name that trims to nothing is refused first,
      then one whose untrimmed `length` (in UTF-16 code units) exceeds 100. */
  function NameCheck(name: string): (r: Option<NameError>)
    ensures r == Some(Blank) <==> IsBlank(name)
    ensures r == Some(TooLong) <==> !IsBlank(name) && Utf16Length(name) > MaxNameLength
    ensures r.None? <==> !IsBlank(name) && Utf16Length(name) <= MaxNameLength
  {
    if IsBlank(name) then Some(Blank)
    else if Utf16Length(name) > MaxNameLength then Some(TooLong)
    else None
  }

  /** A name that passes the check is handed on trimmed: non-empty, with no
      white space at either end, and at most 100 code units long. */
  lemma AcceptedNameTrimmed(name: string)
    requires NameCheck(name).None?
    ensures var t := Trim(name);
      && 1 <= |t| && Utf16Length(t) <= MaxNameLength
      && !IsSpace(t[0]) && !IsSpace(t[|t| - 1])
  {
    var a, b :| 0 <= a <= b <= |name| && Trim(name) == name[a..b];
    Utf16Slice(name, a, b);
  }

  /** A key press as the handlers see it (`e.key`). */
  datatype Key = Enter | Escape | OtherKey
}
