/** The crate-level vocabulary the descriptors are written against: the error
    type, the semantic policy, satisfiers, translators and key capabilities.
    Everything behind these interfaces (signing, key parsing, elliptic-curve
    serialization) stays opaque and is passed in as functions. */
module Miniscript {
  import opened Results
  import opened Util

  /** The crate's `Error`, narrowed to the kinds this core raises or forwards. */
  datatype Error =
    | Unexpected(message: string)
    | MissingSig(publicKey: Bytes)
    | BadDescriptor(message: string)
    | ContextError(message: string)
    | CouldNotSatisfy
    | ImpossibleSatisfaction
    | Other(message: string)

  /** A serialized signature with its sighash byte appended
      (`elementssig_to_rawsig`): at most 72 DER bytes plus one. */
  type RawSig = s: Bytes | |s| <= 73

  /** A serialized secp256k1 public key: 33 bytes compressed, 65 uncompressed. */
  type PublicKeyBytes = s: Bytes | |s| == 33 || |s| == 65
    witness seq(33, _ => 2)

  /** A semantic policy (`policy::semantic::Policy`); the hash-lock and
      time-lock atoms are not part of this model. */
  datatype Policy<K> =
    | Unsatisfiable
    | Trivial
    | Key(key: K)
    | Threshold(k: nat, subs: seq<Policy<K>>)

  function Flatten<T>(ss: seq<seq<T>>): seq<T> {
    if ss == [] then [] else ss[0] + Flatten(ss[1..])
  }

  /** The keys a policy mentions, left to right, with repetitions. */
  function PolicyKeys<K>(p: Policy<K>): seq<K> {
    match p
    case Key(k) => [k]
    case Threshold(_, subs) =>
      Flatten(seq(|subs|, i requires 0 <= i < |subs| => PolicyKeys(subs[i])))
    case _ => []
  }

  /** A satisfier (`Satisfier<Pk>`), narrowed to the one question `Pkh`
      asks: the signature for a key, if the satisfier has one. The `Bare`
      satisfactions take any satisfier type and hand it to the term. */
  datatype Satisfier<!K> = Satisfier(lookupEcdsaSig: K -> Option<RawSig>)

  /** A key translator (`Translator<P, Q, E>`), narrowed to its key method. */
  datatype Translator<!P, Q, E> = Translator(pk: P -> Result<Q, E>)

  /** What `MiniscriptKey` and `ToPublicKey` provide for a key type: its
      serialized public key, its text form and the parser of that text
      (whose error is already turned into a string). */
  datatype KeyOps<!K> = KeyOps(
    toPublicKey: K -> PublicKeyBytes,
    display: K -> string,
    fromStr: string -> Result<K, string>)

  /** A satisfaction: the witness stack and the scriptSig. */
  datatype Satisfaction = Satisfaction(witnessStack: seq<Bytes>, scriptSig: Bytes)
}
