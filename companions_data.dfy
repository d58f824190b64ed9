/**
 * lib/companions-data.ts: the companion table shared by the API routes, with
 * lookup by id and by category.
 */
module CompanionsData {
  import opened Wrappers
  import opened Types
  import opened Lists

  /** The table, in its source order. */
  const Companions: seq<Companion> := [
    Companion("mia-chen", "Mia Chen", "/images/companions/mia.jpg",
      "A confident K-pop dance instructor who leads you backstage after her performance. She loves late-night conversations about dreams, music, and life.",
      "girls", Personality(92, 78, 85, 88, 82, Some(65)),
      ["K-Pop", "Dancing", "Confident", "Night Owl", "Adventurous"], 23, Online),
    Companion("sofia-martinez", "Sofia Martinez", "/images/companions/sofia.jpg",
      "Your neighbor who just moved in next door. She's a photography student with a passion for capturing life's beautiful moments.",
      "girls", Personality(95, 72, 80, 90, 75, Some(40)),
      ["Photography", "Artistic", "Sweet", "Creative", "Spontaneous"], 21, Online),
    Companion("emma-laurent", "Emma Laurent", "/images/companions/emma.jpg",
      "A sophisticated French literature professor who believes in the power of words. Intellectually stimulating and mysteriously alluring.",
      "girls", Personality(75, 68, 98, 85, 70, Some(72)),
      ["Literature", "Intellectual", "Sophisticated", "Mysterious", "Cultured"], 28, Online),
    Companion("aria-rose", "Aria Rose", "/images/companions/aria.jpg",
      "A free-spirited yoga instructor and wellness coach. She radiates calm energy and believes in deep connections.",
      "girls", Personality(90, 65, 82, 92, 68, Some(35)),
      ["Yoga", "Wellness", "Spiritual", "Calm", "Nurturing"], 26, Online),
    Companion("alex-rivera", "Alex Rivera", "/images/companions/alex.jpg",
      "A charming startup founder who traded Wall Street for his dreams. Ambitious yet grounded, with a smile that lights up any room.",
      "guys", Personality(88, 82, 92, 85, 78, Some(70)),
      ["Entrepreneur", "Ambitious", "Charming", "Adventurous", "Coffee Lover"], 29, Online),
    Companion("ryan-kim", "Ryan Kim", "/images/companions/ryan.jpg",
      "Your childhood best friend who grew up to be a professional basketball player. Protective, loyal, and has always had feelings for you.",
      "guys", Personality(95, 85, 75, 90, 72, Some(80)),
      ["Athletic", "Protective", "Loyal", "Competitive", "Childhood Friend"], 25, Online),
    Companion("atlas-monroe", "Atlas Monroe", "/images/companions/atlas.jpg",
      "A mysterious writer who just published his debut novel. He sees beauty in darkness and expresses love through words.",
      "guys", Personality(68, 60, 95, 94, 65, Some(75)),
      ["Writer", "Mysterious", "Intense", "Romantic", "Deep Thinker"], 27, Offline),
    Companion("kai-nakamura", "Kai Nakamura", "/images/companions/kai.jpg",
      "A laid-back surf instructor from Hawaii who teaches you more than just riding waves. His calm demeanor makes everyone feel at ease.",
      "guys", Personality(98, 88, 78, 82, 75, Some(45)),
      ["Surfing", "Laid-back", "Beach Life", "Adventurous", "Free Spirit"], 26, Online),
    Companion("sakura-tanaka", "Sakura Tanaka", "/images/companions/sakura.jpg",
      "A bubbly anime club president who dreams of becoming a manga artist. Energetic, creative, and sees the world through rose-colored glasses.",
      "anime", Personality(98, 90, 75, 80, 85, Some(30)),
      ["Anime", "Manga Artist", "Cheerful", "Creative", "Otaku"], 20, Online),
    Companion("luna-nightshade", "Luna Nightshade", "/images/companions/luna.jpg",
      "A mysterious transfer student with an ethereal presence. She claims to be from another dimension and speaks in riddles.",
      "anime", Personality(70, 55, 95, 85, 60, Some(65)),
      ["Mystical", "Mysterious", "Ethereal", "Otherworldly", "Enigmatic"], 19, Online),
    Companion("nova-valentine", "Nova Valentine", "/images/companions/nova.jpg",
      "A tsundere student council president who secretly writes love letters she never sends. Behind her strict exterior is a hopeless romantic.",
      "anime", Personality(60, 70, 92, 95, 55, Some(85)),
      ["Tsundere", "Student Council", "Secret Romantic", "Strict", "Blushing"], 18, Online)
  ]

  predicate InPercent(v: int) { 0 <= v <= 100 }

  predicate PercentPersonality(p: Personality)
  {
    InPercent(p.friendliness) && InPercent(p.humor) && InPercent(p.intelligence) &&
    InPercent(p.romantic) && InPercent(p.flirty) && (p.dominant.Some? ==> InPercent(p.dominant.value))
  }

  /** The table's invariants: distinct ids, every trait in 0..100, every companion an adult. */
  lemma TableInvariants()
    ensures forall i, j :: 0 <= i < j < |Companions| ==> Companions[i].id != Companions[j].id
    ensures forall i :: 0 <= i < |Companions| ==> PercentPersonality(Companions[i].personality)
    ensures forall i :: 0 <= i < |Companions| ==> Companions[i].age >= 18
  {
    DistinctIds();
    PercentTraits();
  }

  /** The ids of a list of companions, in order. */
  function Ids(s: seq<Companion>): (r: seq<string>)
    ensures |r| == |s|
    ensures forall i :: 0 <= i < |s| ==> r[i] == s[i].id
  {
    seq(|s|, i requires 0 <= i < |s| => s[i].id)
  }

  /** The table's ids, in order. */
  lemma TableIds()
    ensures Ids(Companions) == ["mia-chen", "sofia-martinez", "emma-laurent", "aria-rose", "alex-rivera",
      "ryan-kim", "atlas-monroe", "kai-nakamura", "sakura-tanaka", "luna-nightshade", "nova-valentine"]
  {
  }

  lemma DistinctIds()
    ensures forall i, j :: 0 <= i < j < |Companions| ==> Companions[i].id != Companions[j].id
  {
    TableIds();
    var ids := Ids(Companions);
    assert forall i, j :: 0 <= i < j < |ids| ==> ids[i] != ids[j];
  }

  /** The personalities of a list of companions, in order. */
  function Personalities(s: seq<Companion>): (r: seq<Personality>)
    ensures |r| == |s|
    ensures forall i :: 0 <= i < |s| ==> r[i] == s[i].personality
  {
    seq(|s|, i requires 0 <= i < |s| => s[i].personality)
  }

  /** The table's personalities, in order. */
  lemma TablePersonalities()
    ensures Personalities(Companions) == SeededPersonalities
  {
  }

  const SeededPersonalities := [
    Personality(92, 78, 85, 88, 82, Some(65)), Personality(95, 72, 80, 90, 75, Some(40)),
    Personality(75, 68, 98, 85, 70, Some(72)), Personality(90, 65, 82, 92, 68, Some(35)),
    Personality(88, 82, 92, 85, 78, Some(70)), Personality(95, 85, 75, 90, 72, Some(80)),
    Personality(68, 60, 95, 94, 65, Some(75)), Personality(98, 88, 78, 82, 75, Some(45)),
    Personality(98, 90, 75, 80, 85, Some(30)), Personality(70, 55, 95, 85, 60, Some(65)),
    Personality(60, 70, 92, 95, 55, Some(85))]

  lemma SeededInPercent()
    ensures forall i :: 0 <= i < |SeededPersonalities| ==> PercentPersonality(SeededPersonalities[i])
  {
  }

  lemma PercentTraits()
    ensures forall i :: 0 <= i < |Companions| ==> PercentPersonality(Companions[i].personality)
  {
    TablePersonalities();
    SeededInPercent();
  }

  /** The index `find` stops at: the first companion with that id. */
  function FindIndex(s: seq<Companion>, id: string): (r: Option<nat>)
    ensures r.Some? ==> r.value < |s| && s[r.value].id == id && forall k :: 0 <= k < r.value ==> s[k].id != id
    ensures r.None? <==> forall i :: 0 <= i < |s| ==> s[i].id != id
  {
    FirstIndex(s, (c: Companion) => c.id == id)
  }

  /** `companions.find(c => c.id === id)`. */
  function FindById(s: seq<Companion>, id: string): (r: Option<Companion>)
    ensures r.Some? ==> r.value in s && r.value.id == id
    ensures r.None? <==> forall i :: 0 <= i < |s| ==> s[i].id != id
  {
    var i := FindIndex(s, id);
    if i.Some? then Some(s[i.value]) else None
  }

  /** `getCompanionById`. */
  function GetCompanionById(id: string): (r: Option<Companion>)
    ensures r.Some? ==> r.value in Companions && r.value.id == id
    ensures r.None? <==> forall i :: 0 <= i < |Companions| ==> Companions[i].id != id
  {
    FindById(Companions, id)
  }

  /** `s.filter(c => c.category === category)`. */
  function FilterCategory(s: seq<Companion>, category: string): (r: seq<Companion>)
    ensures forall x :: x in r <==> x in s && x.category == category
    ensures Subsequence(r, s)
  {
    Filter(s, (c: Companion) => c.category == category)
  }

  /** `getCompanionsByCategory`: the whole table for no category, "" or "all". */
  function GetCompanionsByCategory(category: Option<string>): (r: seq<Companion>)
    ensures category.None? || category == Some("") || category == Some("all") ==> r == Companions
    ensures !(category.None? || category == Some("") || category == Some("all")) ==>
              (forall x :: x in r <==> x in Companions && x.category == category.value) && Subsequence(r, Companions)
  {
    if category.None? || category.value == "" || category.value == "all" then Companions
    else FilterCategory(Companions, category.value)
  }

  /** Every category of the table is one of the three the routes accept. */
  lemma CategoriesKnown()
    ensures forall i :: 0 <= i < |Companions| ==> Companions[i].category in {"girls", "guys", "anime"}
  {
  }
}
