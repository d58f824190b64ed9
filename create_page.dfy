/**
 * The companion-creation wizard of app/create/page.tsx: five steps, a name
 * check on the first, a tag selection capped at 5, an interest list capped
 * at 10, and the defaults filled in when the companion is submitted.
 */
module CreatePage {
  import opened Wrappers
  import opened Strings
  import opened Lists
  import Types
  import CustomCompanion

  datatype Step = Basics | Personality | Appearance | Communication | Preview

  const Steps: seq<Step> := [Basics, Personality, Appearance, Communication, Preview]

  /** `steps.findIndex(s => s.id === step)`. */
  function StepIndex(step: Step): (i: nat)
    ensures i < |Steps| && Steps[i] == step
  {
    match step
    case Basics => 0
    case Personality => 1
    case Appearance => 2
    case Communication => 3
    case Preview => 4
  }

  // ------------------------------------------------------------ trim

  lemma {:induction false} DropSpacesEmpty(s: string)
    ensures CustomCompanion.DropSpaces(s) == [] <==> forall i :: 0 <= i < |s| ==> CustomCompanion.IsJsSpace(s[i])
  {
    if s != [] && CustomCompanion.IsJsSpace(s[0]) {
      DropSpacesEmpty(s[1..]);
    }
  }

  /** Dropping the white space at the end. */
  function TrimEndSpaces(s: string): (r: string)
    ensures |r| <= |s| && r == s[..|r|]
    ensures r == [] || !CustomCompanion.IsJsSpace(r[|r| - 1])
    ensures s != [] && !CustomCompanion.IsJsSpace(s[0]) ==> r != []
  {
    if s != [] && CustomCompanion.IsJsSpace(s[|s| - 1]) then TrimEndSpaces(s[..|s| - 1]) else s
  }

  /** `String.prototype.trim`. */
  function JsTrim(s: string): (r: string)
    ensures r == [] <==> forall i :: 0 <= i < |s| ==> CustomCompanion.IsJsSpace(s[i])
    ensures r != [] ==> !CustomCompanion.IsJsSpace(r[0]) && !CustomCompanion.IsJsSpace(r[|r| - 1])
    ensures |r| <= |s|
  {
    DropSpacesEmpty(s);
    TrimEndSpaces(CustomCompanion.DropSpaces(s))
  }

  // ------------------------------------------------------------ validation

  const EmptyNameError := "Please enter a name for your companion"
  const ShortNameError := "Name must be at least 2 characters"

  /**
   * `validateStep`: only "basics" is checked, first for a name that is
   * blank once trimmed, then for fewer than 2 UTF-16 units untrimmed.
   */
  function ValidateStep(step: Step, name: string): (error: Option<string>)
    ensures step != Basics ==> error == None
    ensures step == Basics && JsTrim(name) == "" ==> error == Some(EmptyNameError)
    ensures step == Basics && JsTrim(name) != "" ==>
      (error == None <==> Utf16Length(name) >= 2) && (error.Some? ==> error == Some(ShortNameError))
  {
    if step != Basics then None
    else if JsTrim(name) == "" then Some(EmptyNameError)
    else if Utf16Length(name) < 2 then Some(ShortNameError)
    else None
  }

  /** A name passes exactly when it has a non-blank character and 2 or more UTF-16 units. */
  lemma ValidNames(name: string)
    ensures ValidateStep(Basics, name) == None <==>
      (exists i :: 0 <= i < |name| && !CustomCompanion.IsJsSpace(name[i])) && Utf16Length(name) >= 2
  {
  }

  // ------------------------------------------------------------ tags and interests

  const MaxTags: nat := 5
  const MaxInterests: nat := 10

  /** `toggleTag`: drop every copy of a selected tag, else append and keep the first 5. */
  function ToggleTag(tags: seq<string>, tag: string): (r: seq<string>)
    ensures tag in tags ==> tag !in r && forall t :: t in r <==> t in tags && t != tag
    ensures tag !in tags && |tags| < MaxTags ==> r == tags + [tag]
    ensures tag !in tags && |tags| >= MaxTags ==> r == tags[..MaxTags]
  {
    if tag in tags then Filter(tags, (t: string) => t != tag)
    else
      var added := tags + [tag];
      if |added| <= MaxTags then added else added[..MaxTags]
  }

  /** Toggling never takes a selection of at most 5 tags past 5; with 5 selected, a new tag changes nothing. */
  lemma ToggleTagCapped(tags: seq<string>, tag: string)
    requires |tags| <= MaxTags
    ensures |ToggleTag(tags, tag)| <= MaxTags
    ensures tag !in tags && |tags| == MaxTags ==> ToggleTag(tags, tag) == tags
  {
  }

  /** Toggling a tag that was not selected, when there is room, and toggling it again restores the selection. */
  lemma ToggleTagTwice(tags: seq<string>, tag: string)
    requires tag !in tags && |tags| < MaxTags
    ensures ToggleTag(ToggleTag(tags, tag), tag) == tags
  {
    var p := (t: string) => t != tag;
    FilterAppend(tags, [tag], p);
    FilterAll(tags, p);
  }

  /** The interest rule on Enter: a trimmed, non-blank, new interest is added while fewer than 10 exist. */
  function AddInterest(interests: seq<string>, input: string): (r: seq<string>)
    ensures var i := JsTrim(input);
      (i != "" && i !in interests && |interests| < MaxInterests ==> r == interests + [i])
      && (!(i != "" && i !in interests && |interests| < MaxInterests) ==> r == interests)
  {
    var interest := JsTrim(input);
    if interest != "" && interest !in interests && |interests| < MaxInterests then interests + [interest]
    else interests
  }

  predicate Distinct(s: seq<string>)
  {
    forall i, j :: 0 <= i < j < |s| ==> s[i] != s[j]
  }

  /** Adding interests keeps them distinct, non-blank and at most 10. */
  lemma AddInterestKeeps(interests: seq<string>, input: string)
    requires Distinct(interests) && |interests| <= MaxInterests && "" !in interests
    ensures var r := AddInterest(interests, input);
      Distinct(r) && |r| <= MaxInterests && "" !in r
  {
    var i := JsTrim(input);
    if i != "" && i !in interests && |interests| < MaxInterests {
      AppendNewKeepsDistinct(interests, i);
    }
  }

  lemma AppendNewKeepsDistinct(s: seq<string>, x: string)
    requires Distinct(s) && "" !in s && x != "" && x !in s
    ensures Distinct(s + [x]) && "" !in s + [x]
  {
    var r := s + [x];
    forall a, b | 0 <= a < b < |r| ensures r[a] != r[b] {
      assert r[a] == s[a];
      if b < |s| {
        assert r[b] == s[b];
      }
    }
  }

  /** The "×" on an interest chip: every copy of that interest is dropped, the rest kept in order. */
  function RemoveInterest(interests: seq<string>, interest: string): (r: seq<string>)
    ensures forall i :: i in r <==> i in interests && i != interest
    ensures Subsequence(r, interests)
  {
    Filter(interests, (i: string) => i != interest)
  }

  lemma {:induction false} FilterKeepsDistinct(s: seq<string>, p: string -> bool)
    requires Distinct(s)
    ensures Distinct(Filter(s, p))
  {
    if s != [] {
      assert Distinct(s[1..]);
      FilterKeepsDistinct(s[1..], p);
      if p(s[0]) {
        var t := Filter(s[1..], p);
        assert s[0] !in s[1..];
        assert s[0] !in t;
        var r := [s[0]] + t;
        forall i, j | 0 <= i < j < |r| ensures r[i] != r[j] {
          if i == 0 {
            assert r[j] == t[j - 1];
          } else {
            assert r[i] == t[i - 1] && r[j] == t[j - 1];
          }
        }
      }
    }
  }

  /** Removing an interest keeps the list distinct, non-blank and at most 10, and drops that interest. */
  lemma RemoveInterestKeeps(interests: seq<string>, interest: string)
    requires Distinct(interests) && |interests| <= MaxInterests && "" !in interests
    ensures var r := RemoveInterest(interests, interest);
      Distinct(r) && |r| <= MaxInterests && "" !in r && interest !in r
  {
    FilterKeepsDistinct(interests, (i: string) => i != interest);
  }

  /** Entering an interest and then removing it restores the list. */
  lemma AddThenRemoveInterest(interests: seq<string>, input: string)
    requires JsTrim(input) !in interests
    ensures RemoveInterest(AddInterest(interests, input), JsTrim(input)) == interests
  {
    var p := (i: string) => i != JsTrim(input);
    FilterAll(interests, p);
    if AddInterest(interests, input) != interests {
      FilterAppend(interests, [JsTrim(input)], p);
    }
  }

  // ------------------------------------------------------------ the payload

  datatype AppearanceForm = AppearanceForm(hairColor: string, eyeColor: string, style: string)

  datatype CreatePayload = CreatePayload(
    name: string, category: string, bio: string, avatar: string,
    personality: Types.Personality, tags: seq<string>, age: int, greeting: string,
    scenario: string, communicationStyle: string, interests: seq<string>, appearance: AppearanceForm)

  /** The bio sent for an empty one. */
  function DefaultBio(name: string): string
  {
    "Meet " + name + ", your new AI companion!"
  }

  /** The two defaults: an empty bio becomes `DefaultBio`, no tags become ["Friendly"]. */
  function PayloadBio(bio: string, name: string): (r: string)
    ensures r != ""
    ensures bio != "" ==> r == bio
  {
    if bio != "" then bio else DefaultBio(name)
  }

  function PayloadTags(tags: seq<string>): (r: seq<string>)
    ensures r != []
    ensures tags != [] ==> r == tags
  {
    if |tags| > 0 then tags else ["Friendly"]
  }

  /** What happens when a step is left forwards. */
  datatype Outcome = Rejected(error: string) | Submitted(payload: CreatePayload) | Moved

  class Wizard {
    var currentStep: Step
    var name: string
    var age: int
    var bio: string
    var category: string
    var avatar: string
    var personality: Types.Personality
    var tags: seq<string>
    var greeting: string
    var scenario: string
    var communicationStyle: string
    var interests: seq<string>
    var appearance: AppearanceForm
    /** How many times `router.back()` was called. */
    var backs: nat

    /** At most 5 tags; at most 10 interests, distinct and non-blank. */
    ghost predicate Valid()
      reads this
    {
      |tags| <= MaxTags && |interests| <= MaxInterests && Distinct(interests) && "" !in interests
    }

    /** The form's initial data. */
    constructor()
      ensures Valid()
      ensures currentStep == Basics && name == "" && age == 22 && bio == "" && category == "girls"
      ensures avatar == "/images/companions/mia.jpg"
      ensures personality == Types.Personality(75, 60, 70, 65, 50, None)
      ensures tags == [] && interests == [] && communicationStyle == "friendly"
      ensures greeting == "" && scenario == "" && appearance == AppearanceForm("", "", "") && backs == 0
    {
      currentStep := Basics;
      name := "";
      age := 22;
      bio := "";
      category := "girls";
      avatar := "/images/companions/mia.jpg";
      personality := Types.Personality(75, 60, 70, 65, 50, None);
      tags := [];
      greeting := "";
      scenario := "";
      communicationStyle := "friendly";
      interests := [];
      appearance := AppearanceForm("", "", "");
      backs := 0;
    }

    function Payload(): (p: CreatePayload)
      reads this
      ensures p.name == name && p.bio == PayloadBio(bio, name) && p.tags == PayloadTags(tags)
      ensures p.bio != "" && p.tags != []
    {
      CreatePayload(name, category, PayloadBio(bio, name), avatar, personality, PayloadTags(tags),
                    age, greeting, scenario, communicationStyle, interests, appearance)
    }

    /**
     * `handleNext`: nothing but the error when the step does not validate;
     * on the last step the companion is submitted; otherwise exactly one
     * step forward.
     */
    method HandleNext() returns (outcome: Outcome)
      modifies this
      ensures var e := ValidateStep(old(currentStep), name);
        (e.Some? ==> outcome == Rejected(e.value) && currentStep == old(currentStep))
        && (e.None? && old(currentStep) == Preview ==> outcome == Submitted(Payload()) && currentStep == Preview)
        && (e.None? && old(currentStep) != Preview ==>
              outcome == Moved && StepIndex(currentStep) == StepIndex(old(currentStep)) + 1)
      ensures name == old(name) && tags == old(tags) && interests == old(interests) && backs == old(backs)
      ensures bio == old(bio) && category == old(category) && avatar == old(avatar) && age == old(age)
    {
      var error := ValidateStep(currentStep, name);
      if error.Some? {
        return Rejected(error.value);
      }
      var i := StepIndex(currentStep);
      if i == |Steps| - 1 {
        outcome := Submitted(Payload());
      } else {
        currentStep := Steps[i + 1];
        outcome := Moved;
      }
    }

    /** `handleBack`: `router.back()` on the first step, else one step back. */
    method HandleBack()
      modifies this
      ensures old(currentStep) == Basics ==> backs == old(backs) + 1 && currentStep == Basics
      ensures old(currentStep) != Basics ==>
                backs == old(backs) && StepIndex(currentStep) == StepIndex(old(currentStep)) - 1
      ensures name == old(name) && tags == old(tags) && interests == old(interests)
    {
      var i := StepIndex(currentStep);
      if i == 0 {
        backs := backs + 1;
      } else {
        currentStep := Steps[i - 1];
      }
    }

    /** The step bar: a click moves only to an earlier step. */
    method StepBarClick(i: nat)
      modifies this
      requires i < |Steps|
      ensures i < StepIndex(old(currentStep)) ==> currentStep == Steps[i]
      ensures i >= StepIndex(old(currentStep)) ==> currentStep == old(currentStep)
      ensures StepIndex(currentStep) <= StepIndex(old(currentStep))
      ensures name == old(name) && tags == old(tags) && interests == old(interests) && backs == old(backs)
    {
      if i < StepIndex(currentStep) {
        currentStep := Steps[i];
      }
    }

    method ToggleTagClicked(tag: string)
      modifies this
      ensures tags == ToggleTag(old(tags), tag)
      ensures old(Valid()) ==> Valid()
      ensures currentStep == old(currentStep) && name == old(name) && interests == old(interests)
    {
      if |tags| <= MaxTags {
        ToggleTagCapped(tags, tag);
      }
      tags := ToggleTag(tags, tag);
    }

    method InterestEntered(input: string)
      modifies this
      ensures interests == AddInterest(old(interests), input)
      ensures old(Valid()) ==> Valid()
      ensures currentStep == old(currentStep) && name == old(name) && tags == old(tags)
    {
      if Valid() {
        AddInterestKeeps(interests, input);
      }
      interests := AddInterest(interests, input);
    }

    method InterestRemoved(interest: string)
      modifies this
      ensures interests == RemoveInterest(old(interests), interest)
      ensures old(Valid()) ==> Valid()
      ensures currentStep == old(currentStep) && name == old(name) && tags == old(tags)
    {
      if Valid() {
        RemoveInterestKeeps(interests, interest);
      }
      interests := RemoveInterest(interests, interest);
    }
  }
}
