/** The asset codec of the voting page: an asset selector is written into the
    URL as `native` or as `code:issuer`, and read back by splitting on `:`.

    Building an asset is a call into the wallet SDK (`createAsset`), which
    either returns an asset or throws. The model keeps that call abstract: an
    `accepts` predicate decides whether the SDK accepts a (code, issuer) pair,
    and an accepted pair without an issuer (absent or empty, which JavaScript
    treats alike) is the chain's native asset, as the SDK's `isNative()`
    reports it. */
module AssetCodec {
  import opened Wrappers

  datatype Asset = Native | Credit(code: string, issuer: string)

  /** What the SDK throws when it refuses a code/issuer pair. */
  datatype CodecError = InvalidAsset

  /** The SDK's acceptance rule for `createAsset(code, issuer)`. */
  type Validity = (string, Option<string>) -> bool

  /** The `{code, issuer}` object the asset dropdown hands to the page. */
  datatype AssetFields = AssetFields(code: string, issuer: Option<string>)

  const NATIVE_PARAM: string := "native"

  /** `StellarService.createAsset(code, issuer)` */
  function CreateAsset(code: string, issuer: Option<string>, accepts: Validity): (r: Result<Asset, CodecError>)
    ensures r.Ok? <==> accepts(code, issuer)
    ensures r.Ok? ==> (r.value.Native? <==> issuer.None? || issuer.value == "")
    ensures r.Ok? && r.value.Credit? ==> r.value == Credit(code, issuer.value)
  {
    if !accepts(code, issuer) then Err(InvalidAsset)
    else if issuer.None? || issuer.value == "" then Ok(Native)
    else Ok(Credit(code, issuer.value))
  }

  /** JavaScript's `s.split(':')`: the pieces between the colons, at least
      one (possibly empty) piece, none of them holding a colon. */
  function Fields(s: string): (r: seq<string>)
    ensures |r| >= 1
    ensures forall i :: 0 <= i < |r| ==> ':' !in r[i]
  {
    if s == [] then [""]
    else if s[0] == ':' then [""] + Fields(s[1..])
    else
      var rest := Fields(s[1..]);
      [[s[0]] + rest[0]] + rest[1..]
  }

  lemma {:induction false} FieldsOfPlain(s: string)
    requires ':' !in s
    ensures Fields(s) == [s]
  {
    if s != [] {
      FieldsOfPlain(s[1..]);
      assert [s[0]] + s[1..] == s;
    }
  }

  /** Splitting `code + ":" + rest` gives `code` and then the pieces of
      `rest`. */
  lemma {:induction false} FieldsAfterCode(code: string, rest: string)
    requires ':' !in code
    ensures Fields(code + ":" + rest) == [code] + Fields(rest)
  {
    var s := code + ":" + rest;
    if code == [] {
      assert s[1..] == rest;
    } else {
      assert s[1..] == code[1..] + ":" + rest;
      FieldsAfterCode(code[1..], rest);
      assert [s[0]] + code[1..] == code;
    }
  }

  /** `assetToUrlParams` once the asset is built: `native`, or `code:issuer`. */
  function Encode(a: Asset): (r: string)
    ensures r == NATIVE_PARAM <==> a.Native?
    ensures a.Credit? ==> r == a.code + ":" + a.issuer
    ensures r != ""
  {
    match a
    case Native => NATIVE_PARAM
    case Credit(code, issuer) =>
      var s := code + ":" + issuer;
      assert s[|code|] == ':';
      assert ':' !in NATIVE_PARAM;
      s
  }

  /** `assetToUrlParams(asset)`: the SDK rebuilds the asset first, and its
      exception escapes to the caller. */
  function AssetToUrlParam(fields: AssetFields, accepts: Validity): (r: Result<string, CodecError>)
    ensures r.Ok? <==> accepts(fields.code, fields.issuer)
    ensures r.Ok? ==> (r.value == NATIVE_PARAM <==> fields.issuer.None? || fields.issuer.value == "")
  {
    match CreateAsset(fields.code, fields.issuer, accepts)
    case Ok(a) => Ok(Encode(a))
    case Err(e) => Err(e)
  }

  /** `assetFromUrlParams(param)`: `native` is the native asset; anything
      else is split on `:` and its first two pieces are handed to the SDK,
      whose refusal is the decoding failure. */
  function Decode(param: string, accepts: Validity): (r: Result<Asset, CodecError>)
    ensures param == NATIVE_PARAM ==> r == Ok(Native)
    ensures param != NATIVE_PARAM ==>
              var f := Fields(param);
              r.Ok? <==> accepts(f[0], if |f| >= 2 then Some(f[1]) else None)
  {
    if param == NATIVE_PARAM then Ok(Native)
    else
      var f := Fields(param);
      CreateAsset(f[0], if |f| >= 2 then Some(f[1]) else None, accepts)
  }

  /** An asset that survives the trip through the URL: the native asset, or
      a credit asset the SDK accepts whose code and issuer hold no colon. */
  predicate WellFormed(a: Asset, accepts: Validity)
  {
    a.Credit? ==> ':' !in a.code && ':' !in a.issuer && a.issuer != "" && accepts(a.code, Some(a.issuer))
  }

  /** decode(encode(a)) == a */
  lemma RoundTrip(a: Asset, accepts: Validity)
    requires WellFormed(a, accepts)
    ensures Decode(Encode(a), accepts) == Ok(a)
  {
    if a.Credit? {
      var s := Encode(a);
      FieldsAfterCode(a.code, a.issuer);
      FieldsOfPlain(a.issuer);
      assert Fields(s) == [a.code, a.issuer];
    }
  }

  /** What the page writes for an asset the dropdown hands it decodes to the
      asset the SDK built from it, as long as neither part holds a colon. */
  lemma ParamRoundTrip(fields: AssetFields, accepts: Validity)
    requires ':' !in fields.code
    requires fields.issuer.Some? ==> ':' !in fields.issuer.value
    requires accepts(fields.code, fields.issuer)
    ensures AssetToUrlParam(fields, accepts).Ok?
    ensures Decode(AssetToUrlParam(fields, accepts).value, accepts) == CreateAsset(fields.code, fields.issuer, accepts)
  {
    RoundTrip(CreateAsset(fields.code, fields.issuer, accepts).value, accepts);
  }

  /** Splitting keeps only the first two pieces, so a third piece is lost:
      two different parameters can name the same asset. */
  lemma ExtraPieceIgnored(code: string, issuer: string, extra: string, accepts: Validity)
    requires ':' !in code && ':' !in issuer && ':' !in extra
    ensures code + ":" + issuer + ":" + extra != Encode(Credit(code, issuer))
    ensures Decode(code + ":" + issuer + ":" + extra, accepts) == Decode(Encode(Credit(code, issuer)), accepts)
  {
    var s := code + ":" + issuer + ":" + extra;
    assert s == code + ":" + (issuer + ":" + extra);
    FieldsAfterCode(code, issuer + ":" + extra);
    FieldsAfterCode(issuer, extra);
    FieldsOfPlain(extra);
    FieldsAfterCode(code, issuer);
    FieldsOfPlain(issuer);
    assert |s| > |code + ":" + issuer|;
    assert s[|code|] == ':';
    assert ':' !in NATIVE_PARAM;
  }
}
