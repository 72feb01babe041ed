/**
 * What the crud layer takes from outside: the server configuration, the MD5
 * digest, the JSON codec, fresh identifiers and the clock. None of them is
 * interpreted; each is a parameter of the operations that use it.
 */
module Environment {
  import opened Wrappers

  /** A timestamp, in the text form the database stores. */
  type Time = string

  const ZERO_TIME: Time := ""

  /** A decoded JSON object (`map[string]any`); its contents are opaque to the model. */
  type Json = map<string, string>

  const NO_JSON: Json := map[]

  /** encoding/json: marshalling and unmarshalling, either of which may fail. */
  datatype Codec = Codec(marshal: Json -> Option<string>, unmarshal: string -> Option<Json>)

  /** The storage path of the server configuration, with the hex MD5 digest the asset ids are computed with. */
  datatype Config = Config(storagePath: string, md5Hex: string -> string)
}
