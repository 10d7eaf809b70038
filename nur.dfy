/** The upstream shape of nur.json (indexer/nur/nur.go): like nixpkgs, but
    maintainers are accepted in three shapes and `githubId` may be a number
    or a numeric string. */
module Nur {
  import opened Wrappers
  import opened Json
  import opened Lenient
  import Strconv

  /** The key prefix under which the search engine lists NUR packages. */
  const Prefix: string := "nur/option/"

  datatype Maintainer = Maintainer(name: string, email: string, github: string, githubId: int)

  /** The decoded `meta` object. `knownVulnerabilities` is not a field of the
      Go struct, but the normaliser reads it; it is modelled like the
      nixpkgs field. */
  datatype Meta = Meta(
    description: string,
    longDescription: string,
    mainProgram: string,
    homepages: Option<seq<string>>,
    licenses: seq<License>,
    maintainers: seq<Maintainer>,
    broken: bool,
    unfree: bool,
    name: string,
    position: string,
    platforms: Option<seq<string>>,
    knownVulnerabilities: Option<seq<string>>)

  datatype Package = Package(meta: Meta, version: string)

  const ZeroMeta: Meta := Meta("", "", "", None, [], [], false, false, "", "", None, None)

  /** The `githubId` switch of `Maintainer.UnmarshalJSON`: a number is read
      as a float64 and converted to an integer, a string must parse as a
      decimal int, anything else (including an absent key) is an error. */
  function GithubId(id: Option<Json>): Result<int, string> {
    match id
    case Some(JNumber(n)) => AsFloat64(n)
    case Some(JString(s)) => Strconv.Atoi(s)
    case _ => Err("unexpected type for githubId")
  }

  function Lookup(o: map<string, Json>, key: string): Option<Json> {
    if key in o then Some(o[key]) else None
  }

  /** `Maintainer.UnmarshalJSON`: the full maintainer object. */
  function DecodeMaintainer(j: Json): Result<Maintainer, string> {
    match j
    case JObject(o) =>
      var name :- StringField(o, "name");
      var email :- StringField(o, "email");
      var github :- StringField(o, "github");
      var id :- GithubId(Lookup(o, "githubId"));
      Ok(Maintainer(name, email, github, id))
    case _ => Err("cannot unmarshal into Maintainer")
  }

  /** The `struct { Name string }` fallback: an object whose `name`, if
      present, is a string. */
  function NameOnly(j: Json): Result<string, string> {
    if j.JObject? then StringField(j.fields, "name") else Err("cannot unmarshal into struct")
  }

  /** One entry of `Maintainers.UnmarshalJSON`: the full object, else an
      object with a non-empty name, else a bare string. */
  function DecodeEntry(j: Json): Result<Maintainer, string> {
    var full := DecodeMaintainer(j);
    if full.Ok? then full
    else if NameOnly(j).Ok? && NameOnly(j).value != "" then Ok(Maintainer(NameOnly(j).value, "", "", 0))
    else if j.JString? then Ok(Maintainer(j.s, "", "", 0))
    else Err("unable to unmarshal maintainer")
  }

  /** `Maintainers`: an array whose every entry decodes. */
  function DecodeMaintainers(j: Json): Result<seq<Maintainer>, string> {
    if j.JArray? then DecodeEach(j.elems, DecodeEntry) else Err("cannot unmarshal into []json.RawMessage")
  }

  /** `Maintainers.UnmarshalJSON`, entry by entry, stopping at the first entry
      that fits none of the three shapes. */
  method UnmarshalMaintainers(data: Json) returns (r: Result<seq<Maintainer>, string>)
    ensures r.Ok? <==> data.JArray? && forall i :: 0 <= i < |data.elems| ==> DecodeEntry(data.elems[i]).Ok?
    ensures r.Ok? ==>
      |r.value| == |data.elems| &&
      forall i :: 0 <= i < |data.elems| ==> r.value[i] == DecodeEntry(data.elems[i]).value
    ensures r.Ok? == DecodeMaintainers(data).Ok? && (r.Ok? ==> r.value == DecodeMaintainers(data).value)
  {
    if !data.JArray? {
      return Err("cannot unmarshal into []json.RawMessage");
    }
    var raw := data.elems;
    DecodeEachOk(raw, DecodeEntry);
    var maintainers: seq<Maintainer> := [];
    for i := 0 to |raw|
      invariant |maintainers| == i
      invariant forall k :: 0 <= k < i ==> DecodeEntry(raw[k]) == Ok(maintainers[k])
    {
      var msg := raw[i];
      var maint := DecodeMaintainer(msg);
      if maint.Ok? {
        assert DecodeEntry(msg) == maint;
        DecodedPrefix(raw, maintainers, maint.value);
        maintainers := maintainers + [maint.value];
        continue;
      }
      var tmp := NameOnly(msg);
      if tmp.Ok? && tmp.value != "" {
        assert DecodeEntry(msg) == Ok(Maintainer(tmp.value, "", "", 0));
        DecodedPrefix(raw, maintainers, Maintainer(tmp.value, "", "", 0));
        maintainers := maintainers + [Maintainer(tmp.value, "", "", 0)];
        continue;
      }
      if msg.JString? {
        assert DecodeEntry(msg) == Ok(Maintainer(msg.s, "", "", 0));
        DecodedPrefix(raw, maintainers, Maintainer(msg.s, "", "", 0));
        maintainers := maintainers + [Maintainer(msg.s, "", "", 0)];
        continue;
      }
      assert DecodeEntry(raw[i]).Err?;
      return Err("unable to unmarshal maintainer: entry " + Strconv.Itoa(i));
    }
    return Ok(maintainers);
  }

  /** The decoded prefix grows by one entry when the next entry decodes. */
  lemma DecodedPrefix(raw: seq<Json>, done: seq<Maintainer>, m: Maintainer)
    requires |done| < |raw|
    requires forall k :: 0 <= k < |done| ==> DecodeEntry(raw[k]) == Ok(done[k])
    requires DecodeEntry(raw[|done|]) == Ok(m)
    ensures forall k :: 0 <= k < |done| + 1 ==> DecodeEntry(raw[k]) == Ok((done + [m])[k])
  {
  }

  function DecodeHomepages(j: Json): Result<seq<string>, string> {
    ElemOrSlice(j, AsString)
  }

  function DecodeLicenses(j: Json): Result<seq<License>, string> {
    ElemOrSlice(j, DecodeLicense)
  }

  function DecodePlatforms(j: Json): Result<seq<string>, string> {
    Ok(FlexibleStringSlice(j))
  }

  /** The `meta` object, field by field. */
  function DecodeMeta(j: Json): Result<Meta, string> {
    match j
    case JObject(o) =>
      var description :- StringField(o, "description");
      var longDescription :- StringField(o, "longDescription");
      var mainProgram :- StringField(o, "mainProgram");
      var homepages :- OptionalField(o, "homepage", DecodeHomepages);
      var licenses :- Field(o, "license", [], DecodeLicenses);
      var maintainers :- Field(o, "maintainers", [], DecodeMaintainers);
      var broken :- BoolField(o, "broken");
      var unfree :- BoolField(o, "unfree");
      var name :- StringField(o, "name");
      var position :- StringField(o, "position");
      var platforms :- OptionalField(o, "platforms", DecodePlatforms);
      var knownVulnerabilities :- OptionalField(o, "knownVulnerabilities", AsStrings);
      Ok(Meta(description, longDescription, mainProgram, homepages, licenses, maintainers,
              broken, unfree, name, position, platforms, knownVulnerabilities))
    case _ => Err("cannot unmarshal into Meta")
  }

  function DecodePackage(j: Json): Result<Package, string> {
    match j
    case JObject(o) =>
      var meta :- Field(o, "meta", ZeroMeta, DecodeMeta);
      var version :- StringField(o, "version");
      Ok(Package(meta, version))
    case _ => Err("cannot unmarshal into Package")
  }

  /** The JSON object a maintainer is published as, with a numeric id. */
  function MaintainerObject(m: Maintainer, id: Json): Json {
    JObject(map["name" := JString(m.name), "email" := JString(m.email),
                "github" := JString(m.github), "githubId" := id])
  }

  /** `githubId`: a number up to 2^53 in magnitude is taken as it is and a
      larger one is rounded to a float64 (2^53 + 1 becomes 2^53), the decimal
      string of a 64-bit int gives that int, and a non-numeric string, an
      absent key or a value of another type is an error. */
  lemma GithubIdCases(n: int, b: bool, es: seq<Json>)
    ensures -TwoTo53 <= n <= TwoTo53 ==> GithubId(Some(JNumber(n))) == Ok(n)
    ensures GithubId(Some(JNumber(TwoTo53 + 1))) == Ok(TwoTo53)
    ensures Strconv.MinInt64 <= n <= Strconv.MaxInt64 ==> GithubId(Some(JString(Strconv.Itoa(n)))) == Ok(n)
    ensures GithubId(Some(JString("abc"))).Err? && GithubId(Some(JString(""))).Err?
    ensures GithubId(None).Err? && GithubId(Some(JBool(b))).Err? && GithubId(Some(JArray(es))).Err?
  {
    if -TwoTo53 <= n <= TwoTo53 {
      Float64Exact(n);
    }
    Float64Rounds();
    if Strconv.MinInt64 <= n <= Strconv.MaxInt64 {
      Strconv.AtoiItoa(n);
    }
    assert !Strconv.IsDigit("abc"[0]);
  }

  /** The full object decodes to the maintainer when its id is a numeric
      string, or a number that float64 holds exactly. */
  lemma MaintainerRoundTrip(m: Maintainer)
    requires Strconv.MinInt64 <= m.githubId <= Strconv.MaxInt64
    ensures -TwoTo53 <= m.githubId <= TwoTo53 ==> DecodeEntry(MaintainerObject(m, JNumber(m.githubId))) == Ok(m)
    ensures DecodeEntry(MaintainerObject(m, JString(Strconv.Itoa(m.githubId)))) == Ok(m)
  {
    GithubIdCases(m.githubId, false, []);
  }

  /** An object with a non-empty name but no usable id is kept as a
      name-only maintainer: its email and GitHub handle are dropped. */
  lemma NameOnlyFallback(o: map<string, Json>, name: string)
    requires "name" in o && o["name"] == JString(name) && name != ""
    requires GithubId(Lookup(o, "githubId")).Err?
    ensures DecodeEntry(JObject(o)) == Ok(Maintainer(name, "", "", 0))
  {
  }

  /** A bare string is a maintainer name; a number, a bool, an array or an
      object without name and id fits none of the three shapes. */
  lemma EntryShapes(s: string, n: int, b: bool, es: seq<Json>)
    ensures DecodeEntry(JString(s)) == Ok(Maintainer(s, "", "", 0))
    ensures DecodeEntry(JNumber(n)).Err? && DecodeEntry(JBool(b)).Err? && DecodeEntry(JArray(es)).Err?
    ensures DecodeEntry(JObject(map[])).Err?
  {
  }

  /** One entry that fits no shape fails the whole list, and a value that is
      not an array is never a maintainer list. */
  lemma MaintainersFailure(j: Json, bad: nat)
    ensures !j.JArray? ==> DecodeMaintainers(j).Err?
    ensures j.JArray? && bad < |j.elems| && DecodeEntry(j.elems[bad]).Err? ==> DecodeMaintainers(j).Err?
  {
    if j.JArray? {
      DecodeEachOk(j.elems, DecodeEntry);
    }
  }

  /** The JSON array of the given maintainers' objects, ids as numbers. */
  function MaintainersArray(ms: seq<Maintainer>): Json {
    JArray(seq(|ms|, i requires 0 <= i < |ms| => MaintainerObject(ms[i], JNumber(ms[i].githubId))))
  }

  /** Every maintainer list whose ids float64 holds exactly decodes back from
      its array. */
  lemma MaintainersRoundTrip(ms: seq<Maintainer>)
    requires forall i :: 0 <= i < |ms| ==> -TwoTo53 <= ms[i].githubId <= TwoTo53
    ensures DecodeMaintainers(MaintainersArray(ms)) == Ok(ms)
  {
    var es := MaintainersArray(ms).elems;
    DecodeEachOk(es, DecodeEntry);
    forall i | 0 <= i < |ms| ensures DecodeEntry(es[i]) == Ok(ms[i]) {
      MaintainerRoundTrip(ms[i]);
    }
    assert DecodeMaintainers(MaintainersArray(ms)).value == ms;
  }

  /** The JSON object a `meta` is published as; an absent optional list is
      an absent key. */
  function MetaObject(m: Meta): Json {
    var optional := WithList(WithList(WithList(map[], "homepage", m.homepages),
                                      "platforms", m.platforms),
                             "knownVulnerabilities", m.knownVulnerabilities);
    JObject(optional
      ["description" := JString(m.description)]["longDescription" := JString(m.longDescription)]
      ["mainProgram" := JString(m.mainProgram)]["license" := Licenses(m.licenses)]
      ["maintainers" := MaintainersArray(m.maintainers)]["broken" := JBool(m.broken)]
      ["unfree" := JBool(m.unfree)]
      ["name" := JString(m.name)]["position" := JString(m.position)])
  }

  /** An object decodes to `m` when each key holds what `m` publishes there. */
  lemma DecodeMetaOf(o: map<string, Json>, m: Meta)
    requires StringField(o, "description") == Ok(m.description)
    requires StringField(o, "longDescription") == Ok(m.longDescription)
    requires StringField(o, "mainProgram") == Ok(m.mainProgram)
    requires OptionalField(o, "homepage", DecodeHomepages) == Ok(m.homepages)
    requires Field(o, "license", [], DecodeLicenses) == Ok(m.licenses)
    requires Field(o, "maintainers", [], DecodeMaintainers) == Ok(m.maintainers)
    requires BoolField(o, "broken") == Ok(m.broken)
    requires BoolField(o, "unfree") == Ok(m.unfree)
    requires StringField(o, "name") == Ok(m.name)
    requires StringField(o, "position") == Ok(m.position)
    requires OptionalField(o, "platforms", DecodePlatforms) == Ok(m.platforms)
    requires OptionalField(o, "knownVulnerabilities", AsStrings) == Ok(m.knownVulnerabilities)
    ensures DecodeMeta(JObject(o)) == Ok(m)
  {
  }

  /** The text keys of a published `meta`. */
  lemma MetaObjectTexts(m: Meta)
    ensures var o := MetaObject(m).fields;
      && StringField(o, "description") == Ok(m.description)
      && StringField(o, "longDescription") == Ok(m.longDescription)
      && StringField(o, "mainProgram") == Ok(m.mainProgram)
      && StringField(o, "name") == Ok(m.name)
      && StringField(o, "position") == Ok(m.position)
  {
  }

  /** The flag keys of a published `meta`. */
  lemma MetaObjectFlags(m: Meta)
    ensures var o := MetaObject(m).fields;
      && BoolField(o, "broken") == Ok(m.broken)
      && BoolField(o, "unfree") == Ok(m.unfree)
  {
  }

  /** The license key of a published `meta`. */
  lemma MetaObjectLicenses(m: Meta)
    ensures Field(MetaObject(m).fields, "license", [], DecodeLicenses) == Ok(m.licenses)
  {
    LicensesRoundTrip(m.licenses);
  }

  /** The maintainers key of a published `meta`. */
  lemma MetaObjectMaintainers(m: Meta)
    requires forall i :: 0 <= i < |m.maintainers| ==>
      -TwoTo53 <= m.maintainers[i].githubId <= TwoTo53
    ensures Field(MetaObject(m).fields, "maintainers", [], DecodeMaintainers) == Ok(m.maintainers)
  {
    MaintainersRoundTrip(m.maintainers);
  }

  /** The homepage key of a published `meta`, present exactly when set. */
  lemma MetaObjectHomepage(m: Meta)
    ensures OptionalField(MetaObject(m).fields, "homepage", DecodeHomepages) == Ok(m.homepages)
  {
    if m.homepages.Some? {
      StringListRoundTrip(m.homepages.value);
    }
  }

  /** The platforms key of a published `meta`. */
  lemma MetaObjectPlatforms(m: Meta)
    ensures OptionalField(MetaObject(m).fields, "platforms", DecodePlatforms) == Ok(m.platforms)
  {
    if m.platforms.Some? {
      FlexibleStringSliceRoundTrip(m.platforms.value);
    }
  }

  /** The vulnerabilities key of a published `meta`. */
  lemma MetaObjectVulnerabilities(m: Meta)
    ensures OptionalField(MetaObject(m).fields, "knownVulnerabilities", AsStrings) == Ok(m.knownVulnerabilities)
  {
    if m.knownVulnerabilities.Some? {
      StringsRoundTrip(m.knownVulnerabilities.value);
    }
  }

  /** Every `meta` whose maintainers' ids float64 holds exactly decodes back
      from its published object. */
  lemma MetaRoundTrip(m: Meta)
    requires forall i :: 0 <= i < |m.maintainers| ==>
      -TwoTo53 <= m.maintainers[i].githubId <= TwoTo53
    ensures DecodeMeta(MetaObject(m)) == Ok(m)
  {
    MetaObjectTexts(m);
    MetaObjectFlags(m);
    MetaObjectLicenses(m);
    MetaObjectMaintainers(m);
    MetaObjectHomepage(m);
    MetaObjectPlatforms(m);
    MetaObjectVulnerabilities(m);
    DecodeMetaOf(MetaObject(m).fields, m);
  }

  /** A package without `meta` decodes with the zero meta. */
  lemma PackageWithoutMeta(version: string)
    ensures DecodePackage(JObject(map["version" := JString(version)])) == Ok(Package(ZeroMeta, version))
  {
  }

  /** The NUR meta keeps a present `knownVulnerabilities: []` apart from an
      absent one, as the nixpkgs meta does, and a meta with no keys is the
      zero value. */
  lemma MetaKnownVulnerabilities()
    ensures DecodeMeta(JObject(map["knownVulnerabilities" := JArray([])])).Ok?
    ensures DecodeMeta(JObject(map["knownVulnerabilities" := JArray([])])).value.knownVulnerabilities == Some([])
    ensures DecodeMeta(JObject(map[])) == Ok(ZeroMeta)
  {
  }
}
