/** An already-parsed JSON value and the rules by which Go's
    `encoding/json` fills plain Go values (strings, bools, ints, slices and
    struct fields) from it. Numbers are integers. */
module Json {
  import opened Wrappers
  import Strconv

  datatype Json =
    | JBool(b: bool)
    | JNumber(n: int)
    | JString(s: string)
    | JArray(elems: seq<Json>)
    | JObject(fields: map<string, Json>)

  /** A value decoded into a Go `string`. */
  function AsString(j: Json): Result<string, string> {
    if j.JString? then Ok(j.s) else Err("cannot unmarshal into string")
  }

  /** A value decoded into a Go `int` (64 bits wide). */
  function AsInt(j: Json): Result<int, string> {
    if j.JNumber? && Strconv.MinInt64 <= j.n <= Strconv.MaxInt64 then Ok(j.n)
    else Err("cannot unmarshal into int")
  }

  const TwoTo53: int := 0x20_0000_0000_0000
  const TwoTo1024: int := 0x1_0000_0000_0000_0000_0000_0000_0000_0000_0000_0000_0000_0000_0000_0000_0000_0000_0000_0000_0000_0000_0000_0000_0000_0000_0000_0000_0000_0000_0000_0000_0000_0000_0000_0000_0000_0000_0000_0000_0000_0000_0000_0000_0000_0000_0000_0000_0000_0000_0000_0000_0000_0000_0000_0000_0000_0000_0000_0000_0000_0000_0000_0000_0000_0000

  /** The distance between neighbouring float64 values around `m`: 1 below
      2^53, doubling with each power of two above. */
  function Spacing(m: nat): (u: nat)
    ensures u >= 1
    decreases m
  {
    if m < TwoTo53 then 1 else 2 * Spacing(m / 2)
  }

  /** `m` rounded to a nearest multiple of `u`, a tie going to the even
      multiple: one of the two multiples around `m`, at most half a step
      away. */
  function RoundToMultiple(m: nat, u: nat): (r: nat)
    requires u >= 1
    ensures r == m - m % u || r == m - m % u + u
    ensures 2 * (if r >= m then r - m else m - r) <= u
    ensures 2 * (m % u) == u ==> (r == m - m % u <==> (m / u) % 2 == 0)
  {
    var rem := m % u;
    var evenBelow := (m / u) % 2 == 0;
    assert 0 <= rem < u && rem <= m;
    if 2 * rem < u || (2 * rem == u && evenBelow) then m - rem else m - rem + u
  }

  /** The float64 nearest to the integer `n`, ties to even, as
      `strconv.ParseFloat` rounds: the magnitude goes to one of the two
      multiples of the spacing around it, a tie to the even one, the sign is
      kept and the error is at most half a spacing. */
  function RoundFloat64(n: int): (v: int)
    ensures n >= 0 ==> v == n - n % Spacing(n) || v == n - n % Spacing(n) + Spacing(n)
    ensures n < 0 ==> -v == -n - (-n) % Spacing(-n) || -v == -n - (-n) % Spacing(-n) + Spacing(-n)
    ensures n >= 0 && 2 * (n % Spacing(n)) == Spacing(n) ==>
      (v == n - n % Spacing(n) <==> (n / Spacing(n)) % 2 == 0)
    ensures n < 0 && 2 * ((-n) % Spacing(-n)) == Spacing(-n) ==>
      (-v == -n - (-n) % Spacing(-n) <==> ((-n) / Spacing(-n)) % 2 == 0)
    ensures n >= 0 ==> v >= 0 && 2 * (if v >= n then v - n else n - v) <= Spacing(n)
    ensures n < 0 ==> v <= 0 && 2 * (if v >= n then v - n else n - v) <= Spacing(-n)
  {
    if n >= 0 then RoundToMultiple(n, Spacing(n)) else -(RoundToMultiple(-n, Spacing(-n)) as int)
  }

  /** A number decoded into a Go `any`: a float64, and an error when it
      rounds beyond the largest finite float64. */
  function AsFloat64(n: int): Result<int, string> {
    var v := RoundFloat64(n);
    if v >= TwoTo1024 || v <= -TwoTo1024 then Err("cannot unmarshal number into float64") else Ok(v)
  }

  /** Integers up to 2^53 in magnitude are float64 values exactly. */
  lemma Float64Exact(n: int)
    requires -TwoTo53 <= n <= TwoTo53
    ensures AsFloat64(n) == Ok(n)
  {
    var m := if n >= 0 then n else -n;
    if m == TwoTo53 {
      assert Spacing(m) == 2 * Spacing(m / 2);
      assert Spacing(m / 2) == 1;
    }
    assert RoundToMultiple(m, Spacing(m)) == m;
  }

  /** Above 2^53 neighbouring integers collapse: 2^53 + 1 rounds down to
      2^53 and 2^53 + 3 rounds up to 2^53 + 4, each tie going to the even
      significand. */
  lemma Float64Rounds()
    ensures AsFloat64(TwoTo53 + 1) == Ok(TwoTo53)
    ensures AsFloat64(TwoTo53 + 3) == Ok(TwoTo53 + 4)
  {
    assert Spacing(TwoTo53 + 1) == 2 by {
      assert Spacing((TwoTo53 + 1) / 2) == 1;
    }
    assert Spacing(TwoTo53 + 3) == 2 by {
      assert Spacing((TwoTo53 + 3) / 2) == 1;
    }
  }

  /** Decodes every element in order; the first failing element is the
      error of the whole. */
  function DecodeEach<T>(es: seq<Json>, decode: Json -> Result<T, string>): Result<seq<T>, string>
    decreases |es|
  {
    if es == [] then Ok([])
    else
      var x :- decode(es[0]);
      var xs :- DecodeEach(es[1..], decode);
      Ok([x] + xs)
  }

  /** DecodeEach succeeds exactly when every element decodes, and then gives
      one result per element, in the same order. */
  lemma {:induction false} DecodeEachOk<T>(es: seq<Json>, decode: Json -> Result<T, string>)
    ensures DecodeEach(es, decode).Ok? <==> forall i :: 0 <= i < |es| ==> decode(es[i]).Ok?
    ensures DecodeEach(es, decode).Ok? ==>
      |DecodeEach(es, decode).value| == |es| &&
      forall i :: 0 <= i < |es| ==> DecodeEach(es, decode).value[i] == decode(es[i]).value
    decreases |es|
  {
    if es != [] {
      DecodeEachOk(es[1..], decode);
      if decode(es[0]).Ok? && !DecodeEach(es[1..], decode).Ok? {
        var k :| 0 <= k < |es| - 1 && !decode(es[1..][k]).Ok?;
        assert es[k + 1] == es[1..][k];
      }
      if DecodeEach(es, decode).Ok? {
        forall i | 0 <= i < |es| ensures decode(es[i]).Ok? {
          if i > 0 { assert es[i] == es[1..][i - 1]; }
        }
      }
    }
  }

  /** A value decoded into a Go `[]string`. */
  function AsStrings(j: Json): Result<seq<string>, string> {
    if j.JArray? then DecodeEach(j.elems, AsString) else Err("cannot unmarshal into []string")
  }

  /** The JSON array of the given strings. */
  function Strings(xs: seq<string>): Json {
    JArray(seq(|xs|, i requires 0 <= i < |xs| => JString(xs[i])))
  }

  /** A list of strings published as an array decodes back to itself. */
  lemma StringsRoundTrip(xs: seq<string>)
    ensures AsStrings(Strings(xs)) == Ok(xs)
  {
    DecodeEachOk(Strings(xs).elems, AsString);
    assert AsStrings(Strings(xs)).value == xs;
  }

  /** The object `o` with `key` set to the published list when there is one,
      and without `key` added when there is none. */
  function WithList(o: map<string, Json>, key: string, xs: Option<seq<string>>): map<string, Json> {
    if xs.Some? then o[key := Strings(xs.value)] else o
  }

  /** A present key of an object decoded into a struct field; an absent key
      leaves the field's zero value. */
  function Field<T>(o: map<string, Json>, key: string, zero: T,
                    decode: Json -> Result<T, string>): Result<T, string> {
    if key in o then decode(o[key]) else Ok(zero)
  }

  function StringField(o: map<string, Json>, key: string): Result<string, string> {
    Field(o, key, "", AsString)
  }

  function BoolField(o: map<string, Json>, key: string): Result<bool, string> {
    Field(o, key, false, (j: Json) => if j.JBool? then Ok(j.b) else Err("cannot unmarshal into bool"))
  }

  function IntField(o: map<string, Json>, key: string): Result<int, string> {
    Field(o, key, 0, AsInt)
  }

  /** A key whose absence the Go struct can tell apart (a nil slice): `None`
      when the key is absent. */
  function OptionalField<T>(o: map<string, Json>, key: string,
                            decode: Json -> Result<T, string>): Result<Option<T>, string> {
    if key !in o then Ok(None)
    else
      var v :- decode(o[key]);
      Ok(Some(v))
  }
}
