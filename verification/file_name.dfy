/** File-name handling of the mail editor: the sanitiser, the optional date
    suffix, validation, the key filter of the name input, and the small state
    cell holding the current name and the "add the date" flag.
 */
module FileName {
  import opened JsValues

  const Underscore: Unit := '_' as int as Unit
  const Hyphen: Unit := '-' as int as Unit
  const Dot: Unit := '.' as int as Unit

  /** The fallback name used when no name is given. */
  const Untitled: Text := Bmp("untitled")

  predicate IsLatinLetter(u: Unit)
  {
    ('A' as int <= u as int <= 'Z' as int) || ('a' as int <= u as int <= 'z' as int)
  }

  predicate IsDigit(u: Unit)
  {
    '0' as int <= u as int <= '9' as int
  }

  /** The character class `[a-zA-Zа-яА-Я0-9_-]` of the sanitiser. The two
      Cyrillic ranges together are U+0410..U+044F, so Ё (U+0401) and
      ё (U+0451) are outside it. */
  predicate IsAllowed(u: Unit)
  {
    IsLatinLetter(u) || (0x0410 <= u <= 0x044F) || IsDigit(u) || u == Underscore || u == Hyphen
  }

  /** `s.replace(/[C]/g, replacement)` for a character class C that matches single
      code units and a one-unit replacement: every unit in C is replaced. */
  function ReplaceAll(s: Text, inClass: Unit -> bool, replacement: Unit): (r: Text)
    ensures |r| == |s|
  {
    if s == [] then []
    else [if inClass(s[0]) then replacement else s[0]] + ReplaceAll(s[1..], inClass, replacement)
  }

  lemma {:induction false} ReplaceAllAt(s: Text, inClass: Unit -> bool, replacement: Unit)
    ensures forall i :: 0 <= i < |s| ==>
      ReplaceAll(s, inClass, replacement)[i] == if inClass(s[i]) then replacement else s[i]
  {
    if s != [] {
      ReplaceAllAt(s[1..], inClass, replacement);
      forall i | 1 <= i < |s|
        ensures ReplaceAll(s, inClass, replacement)[i] == if inClass(s[i]) then replacement else s[i]
      {
        assert ReplaceAll(s, inClass, replacement)[i] == ReplaceAll(s[1..], inClass, replacement)[i - 1];
      }
    }
  }

  /** `name.replace(/[^a-zA-Zа-яА-Я0-9_-]/g, '_')`: the length is kept, every
      allowed unit stays in place and every other unit becomes `_`. */
  function Sanitize(name: Text): (r: Text)
    ensures |r| == |name|
    ensures forall i :: 0 <= i < |name| ==>
      r[i] == if IsAllowed(name[i]) then name[i] else Underscore
  {
    ReplaceAllAt(name, u => !IsAllowed(u), Underscore);
    ReplaceAll(name, u => !IsAllowed(u), Underscore)
  }

  /** Everything the sanitiser produces is in the allowed class. */
  lemma SanitizeOnlyAllowed(name: Text)
    ensures forall i :: 0 <= i < |name| ==> IsAllowed(Sanitize(name)[i])
  {
  }

  /** A name is left unchanged by the sanitiser exactly when all its units
      are allowed. */
  lemma SanitizeFixedPoints(name: Text)
    ensures Sanitize(name) == name <==> forall i :: 0 <= i < |name| ==> IsAllowed(name[i])
  {
  }

  /** Sanitising twice is sanitising once. */
  lemma SanitizeIdempotent(name: Text)
    ensures Sanitize(Sanitize(name)) == Sanitize(name)
  {
  }

  /** A sanitised name never contains a dot. */
  lemma SanitizeHasNoDot(name: Text)
    ensures Dot !in Sanitize(name)
  {
  }

  /** `getDate` without the locale: the locale's date string with every `.`
      replaced by `-` (`.replace(/\./g, '-')`). */
  function DashedDate(localeDate: Text): (r: Text)
    ensures |r| == |localeDate|
    ensures Dot !in r
    ensures forall i :: 0 <= i < |localeDate| ==>
      r[i] == if localeDate[i] == Dot then Hyphen else localeDate[i]
  {
    ReplaceAllAt(localeDate, u => u == Dot, Hyphen);
    ReplaceAll(localeDate, u => u == Dot, Hyphen)
  }

  /** `getFileNameWithDate(name, addDate)`: the empty name gives the fallback
      (without a date); any other name is sanitised and, when asked, followed
      by `_` and the dashed date. */
  function FileNameWithDate(name: Text, addDate: bool, localeDate: Text): Text
  {
    if name == [] then Untitled
    else
      var cleanName := Sanitize(name);
      if addDate then cleanName + [Underscore] + DashedDate(localeDate) else cleanName
  }

  /** The shape of `getFileNameWithDate`'s result. */
  lemma FileNameWithDateShape(name: Text, addDate: bool, localeDate: Text)
    ensures var r := FileNameWithDate(name, addDate, localeDate);
      && (name == [] ==> r == Untitled)
      && (name != [] ==>
            && |r| == |name| + (if addDate then 1 + |localeDate| else 0)
            && r[..|name|] == Sanitize(name)
            && (addDate ==> r[|name|] == Underscore && r[|name| + 1..] == DashedDate(localeDate)))
  {
  }

  /** No name built by `getFileNameWithDate` contains a dot, whatever the
      name and the locale's date. */
  lemma FileNameWithDateHasNoDot(name: Text, addDate: bool, localeDate: Text)
    ensures Dot !in FileNameWithDate(name, addDate, localeDate)
  {
  }

  /** `getFileName`: the stored name as it is (not sanitised again), followed
      by `_` and the dashed date when the flag is set. */
  function FullName(nameFile: Text, isSaveDate: bool, localeDate: Text): Text
  {
    if isSaveDate then nameFile + [Underscore] + DashedDate(localeDate) else nameFile
  }

  /** For a name stored by `setFileName` from a non-empty input, `getFileName`
      and `getFileNameWithDate` agree. */
  lemma FullNameOfStoredName(name: Text, isSaveDate: bool, localeDate: Text)
    requires name != []
    ensures FullName(Sanitize(name), isSaveDate, localeDate) == FileNameWithDate(name, isSaveDate, localeDate)
  {
  }

  /** For the empty input the two disagree: `setFileName` stores `untitled`,
      after which `getFileName` adds the date, while `getFileNameWithDate`
      returns `untitled` without one. */
  lemma FullNameOfEmptyInputHasDate(localeDate: Text)
    ensures FullName(Untitled, true, localeDate) != FileNameWithDate([], true, localeDate)
    ensures FullName(Untitled, true, localeDate) == Untitled + [Underscore] + DashedDate(localeDate)
    ensures FileNameWithDate([], true, localeDate) == Untitled
  {
  }

  /** `getFileName` does not sanitise: a stored name with a dot (an initial
      name such as "a.b") keeps the dot. */
  lemma FullNameKeepsUnsanitisedName(nameFile: Text, isSaveDate: bool, localeDate: Text)
    ensures FullName(nameFile, isSaveDate, localeDate)[..|nameFile|] == nameFile
    ensures Dot in nameFile ==> Dot in FullName(nameFile, isSaveDate, localeDate)
  {
  }

  // ---------------------------------------------------------------------
  // Validation

  const MaxNameLength: nat := 255

  const EmptyNameError: string := "Имя файла не может быть пустым"
  const NameTooLongError: string := "Имя файла слишком длинное (максимум 255 символов)"
  const ReservedCharsError: string := "Имя файла содержит недопустимые символы"

  /** The units of the class `[<>:"/\\|?*]`. */
  const Reserved: Text := Bmp("<>:\"/\\|?*")

  predicate IsReserved(u: Unit)
  {
    u in Reserved
  }

  /** `/[<>:"/\\|?*]/.test(name)` */
  function ContainsReserved(name: Text): (b: bool)
    ensures b <==> exists i :: 0 <= i < |name| && IsReserved(name[i])
  {
    if name == [] then false
    else if IsReserved(name[0]) then true
    else
      var rest := ContainsReserved(name[1..]);
      assert forall i :: 1 <= i < |name| ==> name[i] == name[1..][i - 1];
      rest
  }

  datatype Validation = Valid | Invalid(error: string)

  /** `validateFileName`: an ordered chain of checks. */
  function ValidateFileName(name: Text): Validation
  {
    if name == [] then Invalid(EmptyNameError)
    else if |name| > MaxNameLength then Invalid(NameTooLongError)
    else if ContainsReserved(name) then Invalid(ReservedCharsError)
    else Valid
  }

  /** The checks are taken in the order empty, too long, reserved character,
      and each outcome happens exactly when the earlier checks pass. */
  lemma ValidateFileNameOrder(name: Text)
    ensures ValidateFileName(name).Valid? <==>
      0 < |name| <= MaxNameLength && forall i :: 0 <= i < |name| ==> !IsReserved(name[i])
    ensures ValidateFileName(name) == Invalid(EmptyNameError) <==> name == []
    ensures ValidateFileName(name) == Invalid(NameTooLongError) <==> |name| > MaxNameLength
    ensures ValidateFileName(name) == Invalid(ReservedCharsError) <==>
      0 < |name| <= MaxNameLength && exists i :: 0 <= i < |name| && IsReserved(name[i])
  {
  }

  /** A 300-unit name that contains `<` is reported as too long, not as
      containing a reserved character. */
  lemma LongNameReportedBeforeReservedChar(name: Text)
    requires |name| == 300 && '<' as int as Unit in name
    ensures ValidateFileName(name) == Invalid(NameTooLongError)
  {
  }

  // ---------------------------------------------------------------------
  // Key filter of the name input

  /** `\w`: `[A-Za-z0-9_]`. */
  predicate IsWordUnit(u: Unit)
  {
    IsLatinLetter(u) || IsDigit(u) || u == Underscore
  }

  /** `[ЁёА-я]`: Ё, ё and U+0410..U+044F. */
  predicate IsCyrillicLetter(u: Unit)
  {
    u == 0x0401 || u == 0x0451 || (0x0410 <= u <= 0x044F)
  }

  /** The decision of `filterInputFileName`: a key is blocked when it is a
      single non-word unit that is neither a Cyrillic letter nor listed in
      `includeKeys`, or when it is listed in `excludeKeys`. */
  predicate IsInvalidKey(key: Text, includeKeys: seq<Text>, excludeKeys: seq<Text>)
  {
    (|key| == 1 && !IsWordUnit(key[0]) && !IsCyrillicLetter(key[0]) && key !in includeKeys)
    || key in excludeKeys
  }

  /** `excludeKeys` always wins, and a key of any other length than one unit
      (a named key such as "Backspace", or a surrogate pair) is blocked only
      when `excludeKeys` lists it. */
  lemma KeyFilterExcludeWins(key: Text, includeKeys: seq<Text>, excludeKeys: seq<Text>)
    ensures key in excludeKeys ==> IsInvalidKey(key, includeKeys, excludeKeys)
    ensures |key| != 1 ==> (IsInvalidKey(key, includeKeys, excludeKeys) <==> key in excludeKeys)
    ensures |key| == 1 && key !in excludeKeys && (IsWordUnit(key[0]) || IsCyrillicLetter(key[0]) || key in includeKeys)
      ==> !IsInvalidKey(key, includeKeys, excludeKeys)
  {
  }

  const DefaultInclude: seq<Text> := [Bmp("-"), Bmp("_")]
  const DefaultExclude: seq<Text> := [Bmp("."), Bmp(",")]

  /** With the default lists: `-`, `_`, Latin and Cyrillic letters (Ё too)
      pass; `.`, `,` and `!` are blocked; "Backspace" passes. */
  lemma DefaultKeyDecisions()
    ensures !IsInvalidKey(Bmp("-"), DefaultInclude, DefaultExclude)
    ensures !IsInvalidKey(Bmp("_"), DefaultInclude, DefaultExclude)
    ensures !IsInvalidKey(Bmp("a"), DefaultInclude, DefaultExclude)
    ensures !IsInvalidKey(Bmp("Ё"), DefaultInclude, DefaultExclude)
    ensures !IsInvalidKey(Bmp("ж"), DefaultInclude, DefaultExclude)
    ensures IsInvalidKey(Bmp("."), DefaultInclude, DefaultExclude)
    ensures IsInvalidKey(Bmp(","), DefaultInclude, DefaultExclude)
    ensures IsInvalidKey(Bmp("!"), DefaultInclude, DefaultExclude)
    ensures !IsInvalidKey(Bmp("Backspace"), DefaultInclude, DefaultExclude)
  {
  }

  const CapitalYo: Unit := 0x0401
  const SmallYo: Unit := 0x0451

  /** Every single-unit key the default filter lets through, except Ё and ё,
      is kept by the sanitiser. */
  lemma AdmittedKeysSurviveSanitiser(u: Unit)
    requires !IsInvalidKey([u], DefaultInclude, DefaultExclude)
    requires u != CapitalYo && u != SmallYo
    ensures IsAllowed(u)
    ensures Sanitize([u]) == [u]
  {
  }

  /** Ё and ё pass the key filter, yet the sanitiser turns them into `_`. */
  lemma YoAdmittedThenReplaced()
    ensures !IsInvalidKey([CapitalYo], DefaultInclude, DefaultExclude)
    ensures !IsInvalidKey([SmallYo], DefaultInclude, DefaultExclude)
    ensures Sanitize([CapitalYo, SmallYo]) == [Underscore, Underscore]
  {
  }

  // ---------------------------------------------------------------------
  // The state cell of `useFileName`

  /** The default argument of `useFileName`. */
  const DefaultInitialName: Text := Bmp("name")

  class FileNameState {
    const initialName: Text
    var nameFile: Text
    var isSaveDate: bool
    var includeKeys: seq<Text>
    var excludeKeys: seq<Text>

    constructor (initialName: Text)
      ensures this.initialName == initialName
      ensures nameFile == initialName && !isSaveDate
      ensures includeKeys == DefaultInclude && excludeKeys == DefaultExclude
    {
      this.initialName := initialName;
      nameFile := initialName;
      isSaveDate := false;
      includeKeys := DefaultInclude;
      excludeKeys := DefaultExclude;
    }

    /** `useFileName()` without an argument: the initial name is "name". */
    constructor Default()
      ensures initialName == DefaultInitialName
      ensures nameFile == DefaultInitialName && !isSaveDate
      ensures includeKeys == DefaultInclude && excludeKeys == DefaultExclude
    {
      initialName := DefaultInitialName;
      nameFile := DefaultInitialName;
      isSaveDate := false;
      includeKeys := DefaultInclude;
      excludeKeys := DefaultExclude;
    }

    /** `getFileName`, with the locale's date string as a parameter. */
    function GetFileName(localeDate: Text): (r: Text)
      reads this
      ensures |r| == |nameFile| + (if isSaveDate then 1 + |localeDate| else 0)
      ensures r[..|nameFile|] == nameFile
      ensures isSaveDate ==> r[|nameFile|] == Underscore && r[|nameFile| + 1..] == DashedDate(localeDate)
      ensures !isSaveDate ==> r == nameFile
    {
      FullName(nameFile, isSaveDate, localeDate)
    }

    /** `filterInputFileName`: whether the key event's default is prevented. */
    method FilterInputFileName(key: Text) returns (preventDefault: bool)
      ensures preventDefault <==> IsInvalidKey(key, includeKeys, excludeKeys)
    {
      preventDefault := IsInvalidKey(key, includeKeys, excludeKeys);
    }

    /** `setFileName`: stores the sanitised name, or the fallback for the
        empty name; the date flag is untouched. */
    method SetFileName(name: Text)
      modifies this`nameFile
      ensures name == [] ==> nameFile == Untitled
      ensures name != [] ==> nameFile == Sanitize(name)
      ensures forall i :: 0 <= i < |nameFile| ==> IsAllowed(nameFile[i])
    {
      var cleanName := Sanitize(name);
      nameFile := if cleanName == [] then Untitled else cleanName;
    }

    method SetSaveDate(value: bool)
      modifies this`isSaveDate
      ensures isSaveDate == value
    {
      isSaveDate := value;
    }

    method ToggleSaveDate()
      modifies this`isSaveDate
      ensures isSaveDate == !old(isSaveDate)
    {
      isSaveDate := !isSaveDate;
    }

    /** `resetFileName`: back to the name given at creation, without date. */
    method ResetFileName()
      modifies this`nameFile, this`isSaveDate
      ensures nameFile == initialName && !isSaveDate
    {
      nameFile := initialName;
      isSaveDate := false;
    }
  }

  /** Toggling the flag twice restores it and leaves the name alone. */
  method ToggleTwiceRestores(state: FileNameState)
    modifies state
    ensures state.isSaveDate == old(state.isSaveDate)
    ensures state.nameFile == old(state.nameFile)
  {
    state.ToggleSaveDate();
    state.ToggleSaveDate();
  }

  /** A cell created without an argument returns to "name" on reset,
      whatever name was set in between. */
  method DefaultCellResetsToName(name: Text) returns (nameAfterReset: Text)
    ensures nameAfterReset == Bmp("name")
  {
    var state := new FileNameState.Default();
    state.SetFileName(name);
    state.ResetFileName();
    nameAfterReset := state.nameFile;
  }
}
