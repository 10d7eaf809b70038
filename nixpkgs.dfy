/** The upstream shape of nixpkgs.json (indexer/nixpkgs/nixpkgs.go): package
    entries whose `meta` uses the lenient decoders for `homepage`, `license`
    and `platforms`, and a strict list of maintainer objects. */
module Nixpkgs {
  import opened Wrappers
  import opened Json
  import opened Lenient
  import Strconv

  /** The key prefix under which the search engine lists nixpkgs packages. */
  const Prefix: string := "nixpkgs/package/"

  datatype Maintainer = Maintainer(name: string, email: string, github: string, githubId: int)

  /** The decoded `meta` object. A `None` field is a nil Go slice: the key
      was absent. */
  datatype Meta = Meta(
    description: string,
    longDescription: string,
    mainProgram: string,
    homepages: Option<seq<string>>,
    licenses: seq<License>,
    maintainers: seq<Maintainer>,
    broken: bool,
    unfree: bool,
    insecure: bool,
    name: string,
    position: string,
    platforms: Option<seq<string>>,
    knownVulnerabilities: Option<seq<string>>)

  datatype Package = Package(meta: Meta, version: string)

  const ZeroMeta: Meta := Meta("", "", "", None, [], [], false, false, false, "", "", None, None)

  /** A maintainer is decoded by the plain struct rules: an object whose
      present keys have the field's type, `githubId` being an integer. */
  function DecodeMaintainer(j: Json): Result<Maintainer, string> {
    match j
    case JObject(o) =>
      var name :- StringField(o, "name");
      var email :- StringField(o, "email");
      var github :- StringField(o, "github");
      var id :- IntField(o, "githubId");
      Ok(Maintainer(name, email, github, id))
    case _ => Err("cannot unmarshal into Maintainer")
  }

  /** `[]Maintainer`: an array of maintainer objects and nothing else. */
  function DecodeMaintainers(j: Json): Result<seq<Maintainer>, string> {
    if j.JArray? then DecodeEach(j.elems, DecodeMaintainer) else Err("cannot unmarshal into []Maintainer")
  }

  function DecodeHomepages(j: Json): Result<seq<string>, string> {
    ElemOrSlice(j, AsString)
  }

  function DecodeLicenses(j: Json): Result<seq<License>, string> {
    ElemOrSlice(j, DecodeLicense)
  }

  function DecodePlatforms(j: Json): Result<seq<string>, string> {
    Ok(FlexibleStringSlice(j))
  }

  /** The `meta` object, field by field. */
  function DecodeMeta(j: Json): Result<Meta, string> {
    match j
    case JObject(o) =>
      var description :- StringField(o, "description");
      var longDescription :- StringField(o, "longDescription");
      var mainProgram :- StringField(o, "mainProgram");
      var homepages :- OptionalField(o, "homepage", DecodeHomepages);
      var licenses :- Field(o, "license", [], DecodeLicenses);
      var maintainers :- Field(o, "maintainers", [], DecodeMaintainers);
      var broken :- BoolField(o, "broken");
      var unfree :- BoolField(o, "unfree");
      var insecure :- BoolField(o, "insecure");
      var name :- StringField(o, "name");
      var position :- StringField(o, "position");
      var platforms :- OptionalField(o, "platforms", DecodePlatforms);
      var knownVulnerabilities :- OptionalField(o, "knownVulnerabilities", AsStrings);
      Ok(Meta(description, longDescription, mainProgram, homepages, licenses, maintainers,
              broken, unfree, insecure, name, position, platforms, knownVulnerabilities))
    case _ => Err("cannot unmarshal into Meta")
  }

  function DecodePackage(j: Json): Result<Package, string> {
    match j
    case JObject(o) =>
      var meta :- Field(o, "meta", ZeroMeta, DecodeMeta);
      var version :- StringField(o, "version");
      Ok(Package(meta, version))
    case _ => Err("cannot unmarshal into Package")
  }

  /** Maintainers are strict: no bare-string entry and no string `githubId`
      is accepted, while an absent `githubId` is the zero id. */
  lemma StrictMaintainers(s: string, name: string)
    ensures DecodeMaintainer(JString(s)).Err?
    ensures DecodeMaintainers(JArray([JString(s)])).Err?
    ensures DecodeMaintainer(JObject(map["name" := JString(name), "githubId" := JString("1")])).Err?
    ensures DecodeMaintainer(JObject(map["name" := JString(name)])) == Ok(Maintainer(name, "", "", 0))
  {
    DecodeEachOk([JString(s)], DecodeMaintainer);
  }

  /** The maintainer list decodes exactly when it is an array whose every
      entry decodes, one maintainer per entry in order. */
  lemma DecodeMaintainersOk(j: Json)
    ensures DecodeMaintainers(j).Ok? <==>
      j.JArray? && forall i :: 0 <= i < |j.elems| ==> DecodeMaintainer(j.elems[i]).Ok?
    ensures DecodeMaintainers(j).Ok? ==>
      |DecodeMaintainers(j).value| == |j.elems| &&
      forall i :: 0 <= i < |j.elems| ==> DecodeMaintainers(j).value[i] == DecodeMaintainer(j.elems[i]).value
  {
    if j.JArray? {
      DecodeEachOk(j.elems, DecodeMaintainer);
    }
  }

  /** A `knownVulnerabilities` key that is present, even as `[]`, is kept
      apart from an absent one, and a `meta` with no keys is the zero value. */
  lemma MetaKnownVulnerabilities()
    ensures DecodeMeta(JObject(map["knownVulnerabilities" := JArray([])])).Ok?
    ensures DecodeMeta(JObject(map["knownVulnerabilities" := JArray([])])).value.knownVulnerabilities == Some([])
    ensures DecodeMeta(JObject(map[])) == Ok(ZeroMeta)
  {
  }

  /** A bare homepage string is a one-element list. */
  lemma MetaHomepage(url: string)
    ensures DecodeMeta(JObject(map["homepage" := JString(url)])).Ok?
    ensures DecodeMeta(JObject(map["homepage" := JString(url)])).value.homepages == Some([url])
  {
  }

  /** An odd `platforms` shape is an empty list, not an error. */
  lemma MetaPlatforms(odd: map<string, Json>)
    ensures DecodeMeta(JObject(map["platforms" := JObject(odd)])).Ok?
    ensures DecodeMeta(JObject(map["platforms" := JObject(odd)])).value.platforms == Some([])
  {
  }

  /** The JSON object a nixpkgs maintainer is published as. */
  function MaintainerObject(m: Maintainer): Json {
    JObject(map["name" := JString(m.name), "email" := JString(m.email),
                "github" := JString(m.github), "githubId" := JNumber(m.githubId)])
  }

  /** The JSON array of the given maintainers' objects. */
  function MaintainersArray(ms: seq<Maintainer>): Json {
    JArray(seq(|ms|, i requires 0 <= i < |ms| => MaintainerObject(ms[i])))
  }

  /** Every maintainer list with 64-bit ids decodes back from its array. */
  lemma MaintainersRoundTrip(ms: seq<Maintainer>)
    requires forall i :: 0 <= i < |ms| ==> Strconv.MinInt64 <= ms[i].githubId <= Strconv.MaxInt64
    ensures DecodeMaintainers(MaintainersArray(ms)) == Ok(ms)
  {
    DecodeMaintainersOk(MaintainersArray(ms));
    assert DecodeMaintainers(MaintainersArray(ms)).value == ms;
  }

  /** The JSON object a `meta` is published as; an absent optional list is
      an absent key. */
  function MetaObject(m: Meta): Json {
    var optional := WithList(WithList(WithList(map[], "homepage", m.homepages),
                                      "platforms", m.platforms),
                             "knownVulnerabilities", m.knownVulnerabilities);
    JObject(optional
      ["description" := JString(m.description)]["longDescription" := JString(m.longDescription)]
      ["mainProgram" := JString(m.mainProgram)]["license" := Licenses(m.licenses)]
      ["maintainers" := MaintainersArray(m.maintainers)]["broken" := JBool(m.broken)]
      ["unfree" := JBool(m.unfree)]["insecure" := JBool(m.insecure)]
      ["name" := JString(m.name)]["position" := JString(m.position)])
  }

  /** An object decodes to `m` when each key holds what `m` publishes there. */
  lemma DecodeMetaOf(o: map<string, Json>, m: Meta)
    requires StringField(o, "description") == Ok(m.description)
    requires StringField(o, "longDescription") == Ok(m.longDescription)
    requires StringField(o, "mainProgram") == Ok(m.mainProgram)
    requires OptionalField(o, "homepage", DecodeHomepages) == Ok(m.homepages)
    requires Field(o, "license", [], DecodeLicenses) == Ok(m.licenses)
    requires Field(o, "maintainers", [], DecodeMaintainers) == Ok(m.maintainers)
    requires BoolField(o, "broken") == Ok(m.broken)
    requires BoolField(o, "unfree") == Ok(m.unfree)
    requires BoolField(o, "insecure") == Ok(m.insecure)
    requires StringField(o, "name") == Ok(m.name)
    requires StringField(o, "position") == Ok(m.position)
    requires OptionalField(o, "platforms", DecodePlatforms) == Ok(m.platforms)
    requires OptionalField(o, "knownVulnerabilities", AsStrings) == Ok(m.knownVulnerabilities)
    ensures DecodeMeta(JObject(o)) == Ok(m)
  {
  }

  /** The text keys of a published `meta`. */
  lemma MetaObjectTexts(m: Meta)
    ensures var o := MetaObject(m).fields;
      && StringField(o, "description") == Ok(m.description)
      && StringField(o, "longDescription") == Ok(m.longDescription)
      && StringField(o, "mainProgram") == Ok(m.mainProgram)
      && StringField(o, "name") == Ok(m.name)
      && StringField(o, "position") == Ok(m.position)
  {
  }

  /** The flag keys of a published `meta`. */
  lemma MetaObjectFlags(m: Meta)
    ensures var o := MetaObject(m).fields;
      && BoolField(o, "broken") == Ok(m.broken)
      && BoolField(o, "unfree") == Ok(m.unfree)
      && BoolField(o, "insecure") == Ok(m.insecure)
  {
  }

  /** The license key of a published `meta`. */
  lemma MetaObjectLicenses(m: Meta)
    ensures Field(MetaObject(m).fields, "license", [], DecodeLicenses) == Ok(m.licenses)
  {
    LicensesRoundTrip(m.licenses);
  }

  /** The maintainers key of a published `meta`. */
  lemma MetaObjectMaintainers(m: Meta)
    requires forall i :: 0 <= i < |m.maintainers| ==>
      Strconv.MinInt64 <= m.maintainers[i].githubId <= Strconv.MaxInt64
    ensures Field(MetaObject(m).fields, "maintainers", [], DecodeMaintainers) == Ok(m.maintainers)
  {
    MaintainersRoundTrip(m.maintainers);
  }

  /** The homepage key of a published `meta`, present exactly when set. */
  lemma MetaObjectHomepage(m: Meta)
    ensures OptionalField(MetaObject(m).fields, "homepage", DecodeHomepages) == Ok(m.homepages)
  {
    if m.homepages.Some? {
      StringListRoundTrip(m.homepages.value);
    }
  }

  /** The platforms key of a published `meta`. */
  lemma MetaObjectPlatforms(m: Meta)
    ensures OptionalField(MetaObject(m).fields, "platforms", DecodePlatforms) == Ok(m.platforms)
  {
    if m.platforms.Some? {
      FlexibleStringSliceRoundTrip(m.platforms.value);
    }
  }

  /** The vulnerabilities key of a published `meta`. */
  lemma MetaObjectVulnerabilities(m: Meta)
    ensures OptionalField(MetaObject(m).fields, "knownVulnerabilities", AsStrings) == Ok(m.knownVulnerabilities)
  {
    if m.knownVulnerabilities.Some? {
      StringsRoundTrip(m.knownVulnerabilities.value);
    }
  }

  /** Every `meta` whose maintainers have 64-bit ids decodes back from its
      published object. */
  lemma MetaRoundTrip(m: Meta)
    requires forall i :: 0 <= i < |m.maintainers| ==>
      Strconv.MinInt64 <= m.maintainers[i].githubId <= Strconv.MaxInt64
    ensures DecodeMeta(MetaObject(m)) == Ok(m)
  {
    MetaObjectTexts(m);
    MetaObjectFlags(m);
    MetaObjectLicenses(m);
    MetaObjectMaintainers(m);
    MetaObjectHomepage(m);
    MetaObjectPlatforms(m);
    MetaObjectVulnerabilities(m);
    DecodeMetaOf(MetaObject(m).fields, m);
  }

  /** A package without `meta` decodes with the zero meta. */
  lemma PackageWithoutMeta(version: string)
    ensures DecodePackage(JObject(map["version" := JString(version)])) == Ok(Package(ZeroMeta, version))
  {
  }
}
