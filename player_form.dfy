/**
 * The form that adds a player: its field values and error messages, the
 * name check, field edits and submission.
 */
module PlayerEntry {
  import opened Wrappers

  const NAME_REQUIRED := "Ім'я обов'язкове"

  /**
   * The characters `String.prototype.trim` removes: the white space and
   * line terminator code points of section 12.2 and 12.3 of ECMA-262.
   */
  predicate IsJsSpace(c: char)
  {
    || c == '\U{9}' || c == '\U{B}' || c == '\U{C}' || c == '\U{20}' || c == '\U{A0}' || c == '\U{FEFF}'
    || c == '\U{1680}' || ('\U{2000}' <= c <= '\U{200A}') || c == '\U{202F}' || c == '\U{205F}' || c == '\U{3000}'
    || c == '\U{A}' || c == '\U{D}' || c == '\U{2028}' || c == '\U{2029}'
  }

  /** `s` with its leading white space removed. */
  function TrimStart(s: string): string
  {
    if s != [] && IsJsSpace(s[0]) then TrimStart(s[1..]) else s
  }

  /** `s` with its trailing white space removed. */
  function TrimEnd(s: string): string
  {
    if s != [] && IsJsSpace(s[|s| - 1]) then TrimEnd(s[..|s| - 1]) else s
  }

  /** `s.trim()`. */
  function Trim(s: string): string
  {
    TrimEnd(TrimStart(s))
  }

  /** Removing leading white space leaves nothing exactly when there was nothing else. */
  lemma {:induction false} TrimStartEmpty(s: string)
    ensures TrimStart(s) == [] <==> forall i :: 0 <= i < |s| ==> IsJsSpace(s[i])
    ensures TrimStart(s) != [] ==> !IsJsSpace(TrimStart(s)[0])
  {
    if s != [] && IsJsSpace(s[0]) {
      TrimStartEmpty(s[1..]);
      assert forall i :: 0 < i < |s| ==> s[i] == s[1..][i - 1];
    }
  }

  /** Removing trailing white space from a string that starts with another character leaves it non-empty. */
  lemma {:induction false} TrimEndKeepsHead(s: string)
    requires s != [] && !IsJsSpace(s[0])
    ensures TrimEnd(s) != []
  {
    if IsJsSpace(s[|s| - 1]) {
      TrimEndKeepsHead(s[..|s| - 1]);
    }
  }

  /** A trimmed value is empty exactly when every character of it is white space. */
  lemma TrimEmpty(s: string)
    ensures Trim(s) == "" <==> forall i :: 0 <= i < |s| ==> IsJsSpace(s[i])
  {
    TrimStartEmpty(s);
    if TrimStart(s) != [] {
      TrimEndKeepsHead(TrimStart(s));
    }
  }

  /** The name, email and phone fields start empty and the initial values override them. */
  function InitialPlayer(initialValues: map<string, string>): (r: map<string, string>)
    ensures "name" in r && "email" in r && "phone" in r
    ensures forall k :: k in initialValues ==> k in r && r[k] == initialValues[k]
    ensures forall k :: k in r && k !in initialValues ==> k in {"name", "email", "phone"} && r[k] == ""
  {
    map["name" := "", "email" := "", "phone" := ""] + initialValues
  }

  /** The errors `validateForm` finds: only an empty name is one. */
  function FormErrors(player: map<string, string>): map<string, Option<string>>
    requires "name" in player
  {
    if Trim(player["name"]) == "" then map["name" := Some(NAME_REQUIRED)] else map[]
  }

  class PlayerForm {
    var player: map<string, string>
    var errors: map<string, Option<string>>

    /** The name field always exists, so `player.name.trim()` can be read. */
    predicate Valid()
      reads this
    {
      "name" in player
    }

    constructor (initialValues: map<string, string>)
      ensures Valid()
      ensures player == InitialPlayer(initialValues) && errors == map[]
    {
      player := InitialPlayer(initialValues);
      errors := map[];
    }

    /** `validateForm`: replaces the errors with those found and reports whether there are none. */
    method ValidateForm() returns (ok: bool)
      requires Valid()
      modifies this
      ensures Valid() && player == old(player)
      ensures errors == FormErrors(player)
      ensures ok <==> errors == map[]
      ensures ok <==> exists i :: 0 <= i < |player["name"]| && !IsJsSpace(player["name"][i])
    {
      var newErrors: map<string, Option<string>> := map[];
      TrimEmpty(player["name"]);
      if Trim(player["name"]) == "" {
        newErrors := newErrors["name" := Some(NAME_REQUIRED)];
        assert "name" in newErrors;
      }
      errors := newErrors;
      ok := |errors.Keys| == 0;
    }

    /** `handleSubmit`: the player handed to `onSubmit`, or nothing when the name is missing. */
    method HandleSubmit() returns (submitted: Option<map<string, string>>)
      requires Valid()
      modifies this
      ensures Valid() && player == old(player) && errors == FormErrors(player)
      ensures submitted.Some? <==> exists i :: 0 <= i < |player["name"]| && !IsJsSpace(player["name"][i])
      ensures submitted.Some? ==> submitted.value == player
    {
      var ok := ValidateForm();
      if ok {
        submitted := Some(player);
      } else {
        submitted := None;
      }
    }

    /** `handleChange`: sets one field and clears an error reported on it. */
    method HandleChange(name: string, value: string)
      requires Valid()
      modifies this
      ensures Valid()
      ensures player == old(player)[name := value]
      ensures errors == if name in old(errors) && Truthy(old(errors)[name]) then old(errors)[name := None] else old(errors)
    {
      player := player[name := value];
      if name in errors && Truthy(errors[name]) {
        errors := errors[name := None];
      }
    }
  }

  /** Only the name is checked: email and phone never carry an error. */
  lemma OnlyNameChecked(player: map<string, string>)
    requires "name" in player
    ensures FormErrors(player).Keys <= {"name"}
    ensures "email" !in FormErrors(player) && "phone" !in FormErrors(player)
  {
  }

  /** A name with a visible character passes whatever surrounds it. */
  lemma PaddedNamePasses(player: map<string, string>, pad: string, c: char)
    requires "name" in player && !IsJsSpace(c)
    requires player["name"] == pad + [c] + pad
    ensures FormErrors(player) == map[]
  {
    TrimEmpty(player["name"]);
    assert player["name"][|pad|] == c;
  }
}
