/** The error kinds the provider raises or lets through. */
module ProviderBase {

  datatype Error =
    /** `ProviderConnectionError`: a location is missing or unreachable. */
    | ConnectionError(message: string)
    /** `KeyError`: a dictionary lookup of a key the dictionary does not hold. */
    | KeyError(key: string)
    /** Any other exception the inherited metadata fetch may raise. */
    | OtherError(message: string)
}
