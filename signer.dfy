/** Response signing (src/utils/Signer.ts), with the signature algorithm left
    opaque: a loaded private key is modelled by the signing function it
    provides. */
module Signer {
  import opened Records

  /** The key read from private.pem at start-up, if the file was there. */
  datatype SigningKey<-T> = NoKey | PrivateKey(sign: T -> string)

  /** What a client receives: the payload and, when a key is loaded, its
      signature. */
  datatype Envelope<T> = Envelope(data: T, signature: Option<string>)

  /** signResponse: the payload unchanged, signed exactly when a key is loaded;
      the signature is a function of the payload alone. */
  function SignResponse<T>(key: SigningKey<T>, data: T): (e: Envelope<T>)
    ensures e.data == data
    ensures e.signature.None? <==> key.NoKey?
    ensures key.PrivateKey? ==> e.signature == Some(key.sign(data))
  {
    match key
    case NoKey => Envelope(data, None)
    case PrivateKey(sign) => Envelope(data, Some(sign(data)))
  }
}
