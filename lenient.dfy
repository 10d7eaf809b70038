/** The lenient field decoders that indexer/nixpkgs/nixpkgs.go and
    indexer/nur/nur.go both declare, with the same bodies:
    `FlexibleStringSlice`, `License` and `ElemOrSlice`. The model
    defines each once and both package modules use it. */
module Lenient {
  import opened Wrappers
  import opened Json

  datatype License = License(free: bool, fullName: string, spdxId: string)

  /** `FlexibleStringSlice.UnmarshalJSON`: an array of strings, else a
      single string, else an empty list; it never fails. */
  function FlexibleStringSlice(j: Json): seq<string> {
    match AsStrings(j)
    case Ok(xs) => xs
    case Err(_) => if j.JString? then [j.s] else []
  }

  /** `License.UnmarshalJSON`: a bare string is the license's full name; any
      other value is decoded as the `{free, fullName, spdxId}` object. */
  function DecodeLicense(j: Json): Result<License, string> {
    match j
    case JString(s) => Ok(License(false, s, ""))
    case JObject(o) =>
      var free :- BoolField(o, "free");
      var fullName :- StringField(o, "fullName");
      var spdxId :- StringField(o, "spdxId");
      Ok(License(free, fullName, spdxId))
    case _ => Err("unmarshal struct: cannot unmarshal into License")
  }

  /** `ElemOrSlice[T].UnmarshalJSON`: an array is decoded element by element;
      any other value is decoded as one element and wrapped in a list. */
  function ElemOrSlice<T>(j: Json, decode: Json -> Result<T, string>): Result<seq<T>, string> {
    match j
    case JArray(es) =>
      (match DecodeEach(es, decode)
       case Ok(xs) => Ok(xs)
       case Err(e) => Err("unmarshal slice: " + e))
    case _ =>
      (match decode(j)
       case Ok(x) => Ok([x])
       case Err(e) => Err("unmarshal element: " + e))
  }

  /** The JSON object a license is published as. */
  function LicenseObject(l: License): Json {
    JObject(map["free" := JBool(l.free), "fullName" := JString(l.fullName), "spdxId" := JString(l.spdxId)])
  }

  /** The JSON array of the given licenses' objects. */
  function Licenses(ls: seq<License>): Json {
    JArray(seq(|ls|, i requires 0 <= i < |ls| => LicenseObject(ls[i])))
  }

  /** FlexibleStringSlice: an array of strings decodes to itself, a string `s`
      to `[s]`, and every other value (an array holding a non-string, a
      number, a bool, an object) to the empty list. */
  lemma FlexibleStringSliceCases(j: Json)
    ensures j.JArray? && (forall i :: 0 <= i < |j.elems| ==> j.elems[i].JString?) ==>
      |FlexibleStringSlice(j)| == |j.elems| &&
      forall i :: 0 <= i < |j.elems| ==> FlexibleStringSlice(j)[i] == j.elems[i].s
    ensures j.JString? ==> FlexibleStringSlice(j) == [j.s]
    ensures j.JArray? && (exists i :: 0 <= i < |j.elems| && !j.elems[i].JString?) ==>
      FlexibleStringSlice(j) == []
    ensures (j.JBool? || j.JNumber? || j.JObject?) ==> FlexibleStringSlice(j) == []
  {
    if j.JArray? {
      DecodeEachOk(j.elems, AsString);
    }
  }

  /** FlexibleStringSlice gives back any list of strings published as an
      array. */
  lemma FlexibleStringSliceRoundTrip(xs: seq<string>)
    ensures FlexibleStringSlice(Strings(xs)) == xs
  {
    FlexibleStringSliceCases(Strings(xs));
  }

  /** ElemOrSlice on an array succeeds exactly when every element decodes,
      and then yields the decoded elements in order. */
  lemma ElemOrSliceArray<T>(es: seq<Json>, decode: Json -> Result<T, string>)
    ensures ElemOrSlice(JArray(es), decode).Ok? <==> forall i :: 0 <= i < |es| ==> decode(es[i]).Ok?
    ensures ElemOrSlice(JArray(es), decode).Ok? ==>
      |ElemOrSlice(JArray(es), decode).value| == |es| &&
      forall i :: 0 <= i < |es| ==> ElemOrSlice(JArray(es), decode).value[i] == decode(es[i]).value
  {
    DecodeEachOk(es, decode);
  }

  /** ElemOrSlice treats a lone element exactly like the one-element array
      holding it. */
  lemma ElemOrSliceSingleton<T>(j: Json, decode: Json -> Result<T, string>)
    requires !j.JArray?
    ensures ElemOrSlice(j, decode).Ok? == ElemOrSlice(JArray([j]), decode).Ok?
    ensures ElemOrSlice(j, decode).Ok? ==>
      ElemOrSlice(j, decode).value == ElemOrSlice(JArray([j]), decode).value
  {
    ElemOrSliceArray([j], decode);
  }

  /** License: a bare string `s` is `{fullName: s, free: false, spdxId: ""}`,
      and the published object of any license decodes to that license. */
  lemma LicenseRoundTrip(l: License, s: string)
    ensures DecodeLicense(JString(s)) == Ok(License(false, s, ""))
    ensures DecodeLicense(LicenseObject(l)) == Ok(l)
  {
  }

  /** Absent object keys leave the zero value; a number, a bool or an array
      is not a license. */
  lemma LicenseZeroAndErrors(j: Json)
    ensures DecodeLicense(JObject(map[])) == Ok(License(false, "", ""))
    ensures (j.JNumber? || j.JBool? || j.JArray?) ==> DecodeLicense(j).Err?
  {
  }

  /** Published license objects, as an array, decode back to the licenses. */
  lemma LicensesRoundTrip(ls: seq<License>)
    ensures ElemOrSlice(Licenses(ls), DecodeLicense) == Ok(ls)
  {
    ElemOrSliceArray(Licenses(ls).elems, DecodeLicense);
    forall i | 0 <= i < |ls| ensures DecodeLicense(Licenses(ls).elems[i]) == Ok(ls[i]) {
      LicenseRoundTrip(ls[i], "");
    }
    assert ElemOrSlice(Licenses(ls), DecodeLicense).value == ls;
  }

  /** A list of strings published as an array goes through ElemOrSlice
      unchanged. */
  lemma StringListRoundTrip(xs: seq<string>)
    ensures ElemOrSlice(Strings(xs), AsString) == Ok(xs)
  {
    ElemOrSliceArray(Strings(xs).elems, AsString);
    assert ElemOrSlice(Strings(xs), AsString).value == xs;
  }

  /** An array that mixes a bare license name and a license object decodes
      each element by the License rule. */
  lemma MixedLicenses(name: string, l: License)
    ensures ElemOrSlice(JArray([JString(name), LicenseObject(l)]), DecodeLicense)
         == Ok([License(false, name, ""), l])
  {
    var es := [JString(name), LicenseObject(l)];
    ElemOrSliceArray(es, DecodeLicense);
    LicenseRoundTrip(l, name);
    var r := ElemOrSlice(JArray(es), DecodeLicense).value;
    assert |r| == 2 && r[0] == License(false, name, "") && r[1] == l;
    assert r == [License(false, name, ""), l];
  }
}
