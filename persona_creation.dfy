/** components/PersonaCreation.tsx: the persona form. Six free-text fields, an
    optional keyword selection toggled one keyword at a time, and a submit
    that either asks for the missing fields or hands the data on. */
module PersonaCreation {
  import opened Types
  import opened JsText

  /** The six text fields, in the order the form state declares them. */
  datatype Field = Personality | Tone | Interests | Goals | Likes | Dislikes

  datatype FormFields = FormFields(
    personality: string, tone: string, interests: string,
    goals: string, likes: string, dislikes: string)

  /** The form state as the component first renders it. */
  const EmptyForm := FormFields("", "", "", "", "", "")

  function Value(f: FormFields, field: Field): string
  {
    match field
    case Personality => f.personality
    case Tone => f.tone
    case Interests => f.interests
    case Goals => f.goals
    case Likes => f.likes
    case Dislikes => f.dislikes
  }

  /** `handleInputChange`: `{...prev, [name]: value}`. */
  function UpdateField(f: FormFields, field: Field, value: string): (r: FormFields)
    ensures Value(r, field) == value
    ensures forall other: Field :: other != field ==> Value(r, other) == Value(f, other)
  {
    match field
    case Personality => f.(personality := value)
    case Tone => f.(tone := value)
    case Interests => f.(interests := value)
    case Goals => f.(goals := value)
    case Likes => f.(likes := value)
    case Dislikes => f.(dislikes := value)
  }

  /** `Object.values(formData)`. */
  function Values(f: FormFields): seq<string>
  {
    [f.personality, f.tone, f.interests, f.goals, f.likes, f.dislikes]
  }

  /** `isFormValid`: every value is non-empty once trimmed. */
  predicate IsFormValid(f: FormFields)
  {
    forall i :: 0 <= i < |Values(f)| ==> Trim(Values(f)[i]) != ""
  }

  /** None of the six text fields is blank. */
  predicate NoFieldBlank(f: FormFields)
  {
    && !IsBlank(f.personality) && !IsBlank(f.tone) && !IsBlank(f.interests)
    && !IsBlank(f.goals) && !IsBlank(f.likes) && !IsBlank(f.dislikes)
  }

  /** The form is valid exactly when none of the six fields is blank; the
      keywords play no part. */
  lemma FormValidIffNoFieldBlank(f: FormFields)
    ensures IsFormValid(f) <==> NoFieldBlank(f)
  {
    var vs := Values(f);
    EveryFilledIffNoneBlank(vs);
    assert NoFieldBlank(f) <==> forall i :: 0 <= i < |vs| ==> !IsBlank(vs[i]) by {
      assert vs[0] == f.personality && vs[1] == f.tone && vs[2] == f.interests;
      assert vs[3] == f.goals && vs[4] == f.likes && vs[5] == f.dislikes;
    }
  }

  lemma EveryFilledIffNoneBlank(vs: seq<string>)
    ensures (forall i :: 0 <= i < |vs| ==> Trim(vs[i]) != "") <==> (forall i :: 0 <= i < |vs| ==> !IsBlank(vs[i]))
  {
    forall i | 0 <= i < |vs|
      ensures Trim(vs[i]) != "" <==> !IsBlank(vs[i])
    {
      TrimEmptyIffBlank(vs[i]);
    }
  }

  /** `prev.filter(k => k !== keyword)`. */
  function RemoveAll(xs: seq<string>, k: string): (r: seq<string>)
    ensures k !in r
    ensures forall x :: x != k ==> multiset(r)[x] == multiset(xs)[x]
    ensures |r| <= |xs|
  {
    if xs == [] then []
    else
      var rest := RemoveAll(xs[1..], k);
      assert xs == [xs[0]] + xs[1..];
      if xs[0] == k then rest else [xs[0]] + rest
  }

  /** `toggleKeyword`: a selected keyword is removed, an unselected one is
      appended at the end. */
  function ToggleKeyword(selected: seq<string>, keyword: string): (r: seq<string>)
    ensures keyword in r <==> keyword !in selected
  {
    if keyword in selected then RemoveAll(selected, keyword) else selected + [keyword]
  }

  /** A toggle flips the keyword's membership and leaves how often every other
      keyword occurs unchanged. */
  lemma ToggleFlipsOnlyItsKeyword(selected: seq<string>, keyword: string)
    ensures keyword in ToggleKeyword(selected, keyword) <==> keyword !in selected
    ensures forall x :: x != keyword ==>
              multiset(ToggleKeyword(selected, keyword))[x] == multiset(selected)[x]
  {
    if keyword !in selected {
      assert multiset(selected + [keyword]) == multiset(selected) + multiset{keyword};
    }
  }

  /** Removing a keyword that does not occur changes nothing. */
  lemma {:induction false} RemoveAbsent(xs: seq<string>, k: string)
    requires k !in xs
    ensures RemoveAll(xs, k) == xs
  {
    if xs != [] {
      RemoveAbsent(xs[1..], k);
    }
  }

  /** Removing distributes over concatenation. */
  lemma {:induction false} RemoveAppend(xs: seq<string>, ys: seq<string>, k: string)
    ensures RemoveAll(xs + ys, k) == RemoveAll(xs, k) + RemoveAll(ys, k)
  {
    if xs == [] {
      assert xs + ys == ys;
    } else {
      assert (xs + ys)[1..] == xs[1..] + ys;
      RemoveAppend(xs[1..], ys, k);
    }
  }

  /** Toggling an unselected keyword twice gives back the original selection. */
  lemma ToggleTwiceRestores(selected: seq<string>, keyword: string)
    requires keyword !in selected
    ensures ToggleKeyword(ToggleKeyword(selected, keyword), keyword) == selected
  {
    RemoveAppend(selected, [keyword], keyword);
    RemoveAbsent(selected, keyword);
    assert RemoveAll([keyword], keyword) == [];
  }

  predicate NoDuplicates(xs: seq<string>)
  {
    forall i, j :: 0 <= i < j < |xs| ==> xs[i] != xs[j]
  }

  lemma {:induction false} RemoveKeepsNoDuplicates(xs: seq<string>, k: string)
    requires NoDuplicates(xs)
    ensures NoDuplicates(RemoveAll(xs, k))
  {
    if xs != [] {
      var rest := RemoveAll(xs[1..], k);
      RemoveKeepsNoDuplicates(xs[1..], k);
      if xs[0] != k {
        assert xs[0] !in xs[1..];
        assert multiset(rest)[xs[0]] == multiset(xs[1..])[xs[0]] == 0;
        assert xs[0] !in rest;
        assert RemoveAll(xs, k) == [xs[0]] + rest;
      }
    }
  }

  /** Toggling never introduces a duplicate into a selection that has none. */
  lemma ToggleKeepsNoDuplicates(selected: seq<string>, keyword: string)
    requires NoDuplicates(selected)
    ensures NoDuplicates(ToggleKeyword(selected, keyword))
  {
    if keyword in selected {
      RemoveKeepsNoDuplicates(selected, keyword);
    }
  }

  /** What `handleSubmit` does. */
  datatype SubmitResult = ShowPopup | Submitted(data: PersonaData)

  function HandleSubmit(f: FormFields, selected: seq<string>): SubmitResult
  {
    if !IsFormValid(f) then ShowPopup
    else Submitted(PersonaData(f.personality, f.tone, f.interests, f.goals, f.likes, f.dislikes, selected))
  }

  /** A submit shows the popup exactly when a field is blank; otherwise it
      passes on the six fields unchanged together with the selection. */
  lemma SubmitPassesFormOn(f: FormFields, selected: seq<string>)
    ensures HandleSubmit(f, selected).ShowPopup? <==> !NoFieldBlank(f)
    ensures HandleSubmit(f, selected).Submitted? ==>
              var d := HandleSubmit(f, selected).data;
              && d.keywords == selected
              && d.personality == f.personality && d.tone == f.tone && d.interests == f.interests
              && d.goals == f.goals && d.likes == f.likes && d.dislikes == f.dislikes
  {
    FormValidIffNoFieldBlank(f);
  }

  /** A field still at its initial "" brings up the popup whatever else is
      filled in, so the initial form itself cannot be submitted. */
  lemma UnfilledFieldShowsPopup(f: FormFields, field: Field, selected: seq<string>)
    requires Value(f, field) == Value(EmptyForm, field)
    ensures HandleSubmit(f, selected) == ShowPopup
    ensures HandleSubmit(EmptyForm, selected) == ShowPopup
  {
    SubmitPassesFormOn(f, selected);
    SubmitPassesFormOn(EmptyForm, selected);
    assert IsBlank(Value(f, field));
  }
}
