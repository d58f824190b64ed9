/**
 * app/api/companions/custom/route.ts: creating a custom companion. The body
 * is validated (name, then category, then age), the id is a slug of the name
 * and the base-36 creation time, and missing fields take defaults.
 * `now` is `Date.now()` and `createdAt` its ISO form.
 */
module CustomCompanion {
  import opened Wrappers
  import opened Strings
  import opened Slugs
  import Types

  // ------------------------------------------------------------------ slug

  /** JavaScript's `\s`: the ECMAScript white space and line terminators. */
  predicate IsJsSpace(c: char)
  {
    c == '\t' || c == '\n' || c == '\U{B}' || c == '\U{C}' || c == '\r' || c == ' ' ||
    c == '\U{A0}' || c == '\U{1680}' || ('\U{2000}' <= c <= '\U{200A}') ||
    c == '\U{2028}' || c == '\U{2029}' || c == '\U{202F}' || c == '\U{205F}' ||
    c == '\U{3000}' || c == '\U{FEFF}'
  }

  /** What is left after a run of white space at the front. */
  function DropSpaces(s: string): (r: string)
    ensures |r| <= |s| && r == s[|s| - |r|..]
    ensures r == [] || !IsJsSpace(r[0])
    ensures Alnums(r) == Alnums(s)
  {
    if s != [] && IsJsSpace(s[0]) then DropSpaces(s[1..]) else s
  }

  /** `replace(/\s+/g, "-")`: every run of white space becomes one '-'. */
  function SpaceRunsToDash(s: string): string
    decreases |s|
  {
    if s == [] then []
    else if IsJsSpace(s[0]) then "-" + SpaceRunsToDash(DropSpaces(s[1..]))
    else [s[0]] + SpaceRunsToDash(s[1..])
  }

  lemma {:induction false} SpaceRunsAlnums(s: string)
    ensures Alnums(SpaceRunsToDash(s)) == Alnums(s)
    decreases |s|
  {
    if s != [] {
      if IsJsSpace(s[0]) {
        SpaceRunsAlnums(DropSpaces(s[1..]));
        AlnumsAppend("-", SpaceRunsToDash(DropSpaces(s[1..])));
      } else {
        SpaceRunsAlnums(s[1..]);
        AlnumsAppend([s[0]], SpaceRunsToDash(s[1..]));
      }
    }
  }

  lemma {:induction false} SpaceRunsIdentity(s: string)
    requires InAlphabet(s)
    ensures SpaceRunsToDash(s) == s
  {
    if s != [] {
      SpaceRunsIdentity(s[1..]);
    }
  }

  /** `replace(/^-|-$/g, "")`: at most one '-' off the front and one off the back. */
  function TrimOneDash(s: string): (r: string)
    ensures InAlphabet(s) ==> InAlphabet(r)
    ensures NoDoubleDash(s) ==> NoDoubleDash(r)
    ensures NoDoubleDash(s) && |r| > 0 ==> r[0] != '-' && r[|r| - 1] != '-'
    ensures Alnums(r) == Alnums(s)
    ensures |s| > 0 && s[0] != '-' && s[|s| - 1] != '-' ==> r == s
  {
    var a := if |s| > 0 && s[0] == '-' then s[1..] else s;
    assert a == s[|s| - |a|..];
    assert Alnums(a) == Alnums(s);
    if |a| > 0 && a[|a| - 1] == '-' then
      assert a == a[..|a| - 1] + ['-'];
      AlnumsAppend(a[..|a| - 1], ['-']);
      assert NoDoubleDash(s) && |a| >= 2 ==> a[|a| - 2] != '-';
      a[..|a| - 1]
    else a
  }

  /** `generateSlug`. */
  function JsSlug(name: string): string
  {
    TrimOneDash(Squeeze(KeepSlugChars(SpaceRunsToDash(Lower(name)))))
  }

  /**
   * The slug is well formed (it may be empty), keeps exactly the letters and
   * digits of the lower-cased name, and is empty exactly when there are none.
   */
  lemma JsSlugShape(name: string)
    ensures WellFormed(JsSlug(name))
    ensures Alnums(JsSlug(name)) == Alnums(Lower(name))
    ensures JsSlug(name) == "" <==> Alnums(Lower(name)) == ""
  {
    var spaced := SpaceRunsToDash(Lower(name));
    SqueezeInAlphabet(KeepSlugChars(spaced));
    SpaceRunsAlnums(Lower(name));
    KeepSlugCharsAlnums(spaced);
    SqueezeAlnums(KeepSlugChars(spaced));
    WellFormedEmpty(JsSlug(name));
  }

  /** Slugging a slug changes nothing. */
  lemma JsSlugIdempotent(name: string)
    ensures JsSlug(JsSlug(name)) == JsSlug(name)
  {
    var s := JsSlug(name);
    JsSlugShape(name);
    LowerIdentity(s);
    SpaceRunsIdentity(s);
    SqueezeIdentity(s);
  }

  // --------------------------------------------------------------- base 36

  function Base36Digit(d: nat): (c: char)
    requires d < 36
    ensures IsSlugAlnum(c)
  {
    if d < 10 then (('0' as int) + d) as char else (('a' as int) + d - 10) as char
  }

  function Base36Value(c: char): nat
  {
    if '0' <= c <= '9' then (c as int) - ('0' as int)
    else if 'a' <= c <= 'z' then (c as int) - ('a' as int) + 10
    else 0
  }

  /** `n.toString(36)`. */
  function Base36(n: nat): (r: string)
    ensures |r| >= 1
    ensures forall i :: 0 <= i < |r| ==> IsSlugAlnum(r[i])
  {
    if n < 36 then [Base36Digit(n)] else Base36(n / 36) + [Base36Digit(n % 36)]
  }

  /** `parseInt(s, 36)` for a string of base-36 digits. */
  function ParseBase36(s: string): nat
  {
    if s == [] then 0 else ParseBase36(s[..|s| - 1]) * 36 + Base36Value(s[|s| - 1])
  }

  /** The base-36 timestamp in an id reads back as the time it was made. */
  lemma {:induction false} Base36RoundTrip(n: nat)
    ensures ParseBase36(Base36(n)) == n
  {
    if n >= 36 {
      Base36RoundTrip(n / 36);
      var r := Base36(n);
      assert r[..|r| - 1] == Base36(n / 36);
    }
  }

  // ------------------------------------------------------------------ POST

  /** The fields of the request body; `None` is a field that is absent or `null`. */
  datatype CustomBody = CustomBody(
    name: Option<string>,
    category: Option<string>,
    bio: Option<string>,
    avatar: Option<string>,
    personality: Option<Types.Personality>,
    tags: Option<seq<string>>,
    age: Option<int>,
    greeting: Option<string>,
    scenario: Option<string>,
    communicationStyle: Option<string>,
    interests: Option<seq<string>>,
    appearance: Option<map<string, string>>)

  /** The companion object the route returns. */
  datatype Created = Created(
    id: string,
    name: string,
    category: string,
    bio: string,
    avatar: string,
    personality: Types.Personality,
    tags: seq<string>,
    age: int,
    status: Types.Status,
    greeting: Option<string>,
    scenario: Option<string>,
    communicationStyle: string,
    interests: seq<string>,
    appearance: map<string, string>,
    createdAt: string)

  datatype Response = Success(status: int, data: Created) | Failure(status: int, error: string)

  const NameError := "Name is required and must be at least 2 characters"
  const CategoryError := "Category must be one of: girls, guys, anime"
  const AgeError := "Age must be between 18 and 100"
  const CreateError := "Failed to create companion"

  const DefaultAvatar := "/images/companions/default.jpg"
  const DefaultPersonality := Types.Personality(75, 60, 70, 65, 50, None)

  /** `x || fallback` for a string: an absent or empty string takes the fallback. */
  function OrElse(x: Option<string>, fallback: string): string
  {
    if x.Some? && x.value != "" then x.value else fallback
  }

  /** `x || null`: an empty string becomes `null`. */
  function NonEmptyOrNull(x: Option<string>): Option<string>
  {
    if x.Some? && x.value != "" then x else None
  }

  predicate ValidName(name: Option<string>)
  {
    name.Some? && name.value != "" && Utf16Length(name.value) >= 2
  }

  predicate ValidCategory(category: Option<string>)
  {
    category.Some? && category.value in ["girls", "guys", "anime"]
  }

  predicate ValidAge(age: Option<int>)
  {
    age.Some? && age.value != 0 && 18 <= age.value <= 100
  }

  /** The id: the slug, '-', and the creation time in base 36. */
  function CustomId(name: string, now: nat): string
  {
    JsSlug(name) + "-" + Base36(now)
  }

  /** `POST`. `body` is `None` when the JSON does not parse. */
  function Post(body: Option<CustomBody>, now: nat, createdAt: string): (r: Response)
    ensures body.None? ==> r == Failure(500, CreateError)
    ensures body.Some? && !ValidName(body.value.name) ==> r == Failure(400, NameError)
    ensures body.Some? && ValidName(body.value.name) && !ValidCategory(body.value.category) ==>
              r == Failure(400, CategoryError)
    ensures (body.Some? && ValidName(body.value.name) && ValidCategory(body.value.category) &&
             !ValidAge(body.value.age)) ==> r == Failure(400, AgeError)
    ensures r.Success? <==>
              body.Some? && ValidName(body.value.name) && ValidCategory(body.value.category) && ValidAge(body.value.age)
    ensures r.Success? ==>
              (r.status == 201 && r.data.id == CustomId(r.data.name, now) &&
               r.data.name == body.value.name.value && 18 <= r.data.age <= 100 &&
               r.data.status == Types.Online)
  {
    if body.None? then Failure(500, CreateError)
    else
      var b := body.value;
      if !ValidName(b.name) then Failure(400, NameError)
      else if !ValidCategory(b.category) then Failure(400, CategoryError)
      else if !ValidAge(b.age) then Failure(400, AgeError)
      else
        var name := b.name.value;
        Success(201, Created(
          CustomId(name, now),
          name,
          b.category.value,
          OrElse(b.bio, "Meet " + name + ", your new AI companion!"),
          OrElse(b.avatar, DefaultAvatar),
          b.personality.GetOr(DefaultPersonality),
          b.tags.GetOr(["Friendly"]),
          b.age.value,
          Types.Online,
          NonEmptyOrNull(b.greeting),
          NonEmptyOrNull(b.scenario),
          OrElse(b.communicationStyle, "friendly"),
          b.interests.GetOr([]),
          b.appearance.GetOr(map[]),
          createdAt))
  }

  /**
   * The defaults: a bio naming the companion, the default avatar and
   * personality, the tag "Friendly", a "friendly" style, no interests, no
   * appearance; an empty greeting or scenario becomes null.
   */
  lemma PostDefaults(b: CustomBody, now: nat, createdAt: string)
    requires ValidName(b.name) && ValidCategory(b.category) && ValidAge(b.age)
    ensures var r := Post(Some(b), now, createdAt);
            r.Success? &&
            (b.bio.None? || b.bio == Some("") ==> r.data.bio == "Meet " + b.name.value + ", your new AI companion!") &&
            (b.avatar.None? ==> r.data.avatar == DefaultAvatar) &&
            (b.personality.None? ==> r.data.personality == Types.Personality(75, 60, 70, 65, 50, None)) &&
            (b.tags.None? ==> r.data.tags == ["Friendly"]) &&
            (b.communicationStyle.None? ==> r.data.communicationStyle == "friendly") &&
            (b.interests.None? ==> r.data.interests == []) &&
            (b.appearance.None? ==> r.data.appearance == map[]) &&
            (b.greeting == Some("") ==> r.data.greeting.None?) &&
            (b.tags.Some? ==> r.data.tags == b.tags.value)
  {
  }

  /** A well-formed non-empty slug, '-', and letters and digits make a well-formed slug. */
  lemma JoinWellFormed(slug: string, stamp: string)
    requires WellFormed(slug) && slug != ""
    requires stamp != [] && forall i :: 0 <= i < |stamp| ==> IsSlugAlnum(stamp[i])
    ensures WellFormed(slug + "-" + stamp)
  {
    var id := slug + "-" + stamp;
    assert forall i :: 0 <= i < |slug| ==> id[i] == slug[i];
    assert id[|slug|] == '-';
    assert forall i :: |slug| < i < |id| ==> id[i] == stamp[i - |slug| - 1];
  }

  /**
   * The id ends with the base-36 time, which reads back as `now`; it is a
   * well-formed slug when the name has a letter or digit, and starts with
   * '-' when it has none.
   */
  lemma CustomIdShape(name: string, now: nat)
    ensures |CustomId(name, now)| > |Base36(now)|
    ensures ParseBase36(CustomId(name, now)[|CustomId(name, now)| - |Base36(now)|..]) == now
    ensures Alnums(Lower(name)) != "" ==> WellFormed(CustomId(name, now))
    ensures Alnums(Lower(name)) == "" ==> CustomId(name, now)[0] == '-'
  {
    var slug, stamp := JsSlug(name), Base36(now);
    var id := slug + "-" + stamp;
    JsSlugShape(name);
    Base36RoundTrip(now);
    assert id[|id| - |stamp|..] == stamp;
    if slug != "" {
      JoinWellFormed(slug, stamp);
    }
  }

  /** Validation order: a bad name is reported even when category and age are bad too. */
  lemma NameCheckedFirst(b: CustomBody, now: nat, createdAt: string)
    requires !ValidName(b.name)
    ensures Post(Some(b), now, createdAt) == Failure(400, NameError)
  {
  }

  /** JavaScript counts UTF-16 units: one character outside the BMP is a long-enough name. */
  lemma AstralNameAccepted()
    ensures ValidName(Some("\U{1F496}"))
  {
  }
}
