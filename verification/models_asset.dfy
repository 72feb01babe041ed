/** Asset descriptions as the API exchanges them. */
module AssetModels {
  import opened Wrappers
  import opened ApiErrors

  /** Where an asset lives and what it holds. */
  datatype AssetDetails = AssetDetails(digestAlg: string, digest: string, uri: string, remoteUri: string, size: int)

  /** The zero value of an AssetDetails. */
  const NO_DETAILS := AssetDetails("", "", "", "", 0)

  /** An asset with the storage key it is registered under. */
  datatype AssetPublicSchema = AssetPublicSchema(details: AssetDetails, key: string)

  datatype BulkAssetPostBody = BulkAssetPostBody(assets: seq<AssetPublicSchema>)

  /** `a.Copy(d)`: the receiver takes over every field of the source; the source is not written. */
  function Copy(a: AssetDetails, d: AssetDetails): (r: AssetDetails)
    ensures r.digestAlg == d.digestAlg && r.digest == d.digest && r.uri == d.uri
    ensures r.remoteUri == d.remoteUri && r.size == d.size
  {
    a.(digestAlg := d.digestAlg, digest := d.digest, uri := d.uri, remoteUri := d.remoteUri, size := d.size)
  }

  /** The error a bulk registration with an empty key is rejected with. */
  const EMPTY_KEY_ERROR := NewValidationError(Message("Key must not be empty"))

  /** Rejects the body when some asset has an empty key. */
  method ValidateBulkRequest(p: BulkAssetPostBody) returns (err: Option<ApiError>)
    ensures err.Some? <==> exists i :: 0 <= i < |p.assets| && p.assets[i].key == ""
    ensures err.Some? ==> err.value == EMPTY_KEY_ERROR && err.value.statusCode == 422
  {
    var i := 0;
    while i < |p.assets|
      invariant 0 <= i <= |p.assets|
      invariant forall k :: 0 <= k < i ==> p.assets[k].key != ""
    {
      if |p.assets[i].key| == 0 {
        return Some(EMPTY_KEY_ERROR);
      }
      i := i + 1;
    }
    return None;
  }
}
