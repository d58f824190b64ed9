/**
 * app/api/images/generate/route.ts: the mock photo endpoint. A known
 * companion gets one of its photos, any other id the default photo.
 * `Math.floor(Math.random() * photos.length)` is `draw % |photos|`.
 *
 * As written, the photo and name tables are object literals, so an id such
 * as "constructor" reads an inherited member: no photo list, and the
 * response has no image URL. `PickAsWritten` models that lookup; `Pick`, used
 * by `Post`, reads own keys only.
 */
module ImagesRoute {
  import opened Wrappers
  import opened JsObjects

  const DefaultPhoto := "/images/companions/mia.jpg"

  /** `companionPhotos`. */
  const Photos: map<string, seq<string>> := map[
    "mia-chen" := ["/images/companions/mia.jpg"],
    "sofia-martinez" := ["/images/companions/sofia.jpg"],
    "emma-laurent" := ["/images/companions/emma.jpg"],
    "aria-rose" := ["/images/companions/aria.jpg"],
    "alex-rivera" := ["/images/companions/alex.jpg"],
    "ryan-kim" := ["/images/companions/ryan.jpg"],
    "atlas-monroe" := ["/images/companions/atlas.jpg"],
    "kai-nakamura" := ["/images/companions/kai.jpg"],
    "sakura-tanaka" := ["/images/companions/sakura.jpg"],
    "luna-nightshade" := ["/images/companions/luna.jpg"],
    "nova-valentine" := ["/images/companions/nova.jpg"]
  ]

  /** `companionNames`. */
  const Names: map<string, string> := map[
    "mia-chen" := "Mia Chen",
    "sofia-martinez" := "Sofia Martinez",
    "emma-laurent" := "Emma Laurent",
    "aria-rose" := "Aria Rose",
    "alex-rivera" := "Alex Rivera",
    "ryan-kim" := "Ryan Kim",
    "atlas-monroe" := "Atlas Monroe",
    "kai-nakamura" := "Kai Nakamura",
    "sakura-tanaka" := "Sakura Tanaka",
    "luna-nightshade" := "Luna Nightshade",
    "nova-valentine" := "Nova Valentine"
  ]

  /** Every photo list is non-empty and every name is non-empty. */
  lemma TablesNonEmpty()
    ensures forall id :: id in Photos ==> |Photos[id]| > 0
    ensures forall id :: id in Names ==> Names[id] != ""
    ensures Photos.Keys == Names.Keys
  {
  }

  /** The photo list a request draws from: the companion's own, or the default one. */
  function PhotoList(companionId: string): (photos: seq<string>)
    ensures |photos| > 0
    ensures companionId in Photos ==> photos == Photos[companionId]
    ensures companionId !in Photos ==> photos == [DefaultPhoto]
  {
    TablesNonEmpty();
    if companionId in Photos && |Photos[companionId]| > 0 then Photos[companionId] else [DefaultPhoto]
  }

  /** The photo picked, reading own keys only. */
  function Pick(companionId: string, draw: nat): (url: string)
    ensures url in PhotoList(companionId)
  {
    var photos := PhotoList(companionId);
    photos[draw % |photos|]
  }

  /**
   * The photo picked as written: an inherited member is not a list, and
   * indexing it gives `undefined` (`None`).
   */
  function PickAsWritten(companionId: string, draw: nat): (url: Option<string>)
    ensures companionId !in PrototypeKeys ==> url == Some(Pick(companionId, draw))
  {
    match ReadKey(Photos, companionId)
    case Own(photos) => if |photos| > 0 then Some(photos[draw % |photos|]) else None
    case Inherited => None
    case Missing => Some(DefaultPhoto)
  }

  /** The id "constructor" gets no image URL from the code as written. */
  lemma ConstructorHasNoPhoto(draw: nat)
    ensures PickAsWritten("constructor", draw).None?
    ensures Pick("constructor", draw) == DefaultPhoto
  {
    assert "constructor" !in Photos;
  }

  datatype ImageBody = ImageBody(companionId: Option<string>, photoType: Option<string>)

  datatype ImageData = ImageData(imageUrl: string, companionId: string, companion: string, photoType: string)

  datatype ImageResponse = ImageOk(data: ImageData) | ImageError(status: int, error: string)

  /** `POST`; `body` is `None` when the JSON does not parse. The 500 ms pause is not modelled. */
  function Post(body: Option<ImageBody>, draw: nat): (r: ImageResponse)
    ensures body.None? ==> r == ImageError(500, "Failed to generate image")
    ensures body.Some? && (body.value.companionId.None? || body.value.companionId == Some("")) ==>
              r == ImageError(400, "companionId is required")
    ensures r.ImageOk? <==> body.Some? && body.value.companionId.Some? && body.value.companionId.value != ""
    ensures r.ImageOk? ==>
              r.data.companionId == body.value.companionId.value &&
              r.data.imageUrl in PhotoList(r.data.companionId) &&
              (r.data.companionId !in Photos ==> r.data.imageUrl == DefaultPhoto) &&
              (r.data.companionId in Names ==> r.data.companion == Names[r.data.companionId]) &&
              (r.data.companionId !in Names ==> r.data.companion == "AI Companion") &&
              (body.value.photoType.None? || body.value.photoType == Some("") ==> r.data.photoType == "selfie") &&
              (body.value.photoType.Some? && body.value.photoType.value != "" ==>
                 r.data.photoType == body.value.photoType.value)
  {
    TablesNonEmpty();
    if body.None? then ImageError(500, "Failed to generate image")
    else
      var b := body.value;
      if b.companionId.None? || b.companionId.value == "" then ImageError(400, "companionId is required")
      else
        var id := b.companionId.value;
        ImageOk(ImageData(
          Pick(id, draw),
          id,
          if id in Names && Names[id] != "" then Names[id] else "AI Companion",
          if b.photoType.Some? && b.photoType.value != "" then b.photoType.value else "selfie"))
  }
}
