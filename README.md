# Bare and Pkh descriptors of elements-miniscript, in Dafny

This project models `src/descriptor/bare.rs` of elements-miniscript: the two
unwrapped output descriptors of the Elements ledger.

- `Bare<Pk>` wraps a Miniscript term that has passed the bare script
  context's top-level checks. It can be built (`new`), parsed from a tree or
  from text, satisfied (non-malleably or malleably), bounded in weight,
  lifted to a semantic policy, traversed for keys and translated to another
  key type.
- `Pkh<Pk>` wraps one key. It has the same operations, with a fixed weight
  formula and a satisfaction that pushes a signature and then the public key.

Both descriptors are immutable values, so the model is pure: datatypes with
member functions (`Descriptor.Bare`, `Descriptor.Pkh`) and lemmas about them
(`BareProperties`). The Miniscript term is a type parameter `M`. Everything
the file calls but does not define is a parameter of the operation that uses
it, and each property holds whatever that parameter does. These parameters
are the term's top-level checks, parser, satisfiers, size bound, lifting,
key traversal and translation; `verify_checksum`, the checksum, and
`expression::Tree::from_str`; `witness_to_scriptsig`; key parsing, display
and `to_public_key`; and the context's `pk_len`.

What is concrete:

- `Util`: the CompactSize length (`varint_len`) with the CompactSize
  encoding and decoder it measures, and decimal formatting of the argument
  count in the `Pkh` error message.
- `Script`: the script builder's push encoding (`push_slice`, and `push_key`
  as a push of the serialized key) with a reader for it.
- `Expression`: the tree datatype and `expression::terminal`, modelled from
  its documented behaviour. A leaf goes to the converter, whose error becomes
  `Unexpected`. A node with arguments is refused with `Unexpected(name)`.
- `Miniscript`: the error kinds, the semantic policy, the satisfier and
  translator interfaces.

The satisfier hands back a serialized signature with its sighash byte already
appended, which is what `elementssig_to_rawsig` produces; it is at most 73
bytes. A public key is its 33- or 65-byte serialization.

`Bare::from_str` is modelled twice. `FromStrAsWritten` follows the code,
which cuts two characters off the checksum-stripped text before tree
parsing. `FromStr` is the corrected form that parses the whole text, as
`Pkh::from_str` does. The design intent is that every descriptor parses
back from its rendering. The code as written breaks that for `Bare`; see
"## Findings".

## Model

| member | source | states |
|---|---|---|
| `Util.VarintLen` | src/descriptor/bare.rs:80 | `varint_len` is 1, 3, 5 or 9, and 1 exactly for values below 0xfd |
| `Util.ScriptSigWeight` | src/descriptor/bare.rs:80 | the weight charged for a scriptSig of `len` bytes is a multiple of 4, at least `4 * (len + 1)`, and exactly that below 0xfd bytes |
| `Util.CompactSize` | src/descriptor/bare.rs:80 | the CompactSize encoding of `n` is exactly `varint_len(n)` bytes long, and its first byte is below 0xfd iff `n` is |
| `Util.CompactSizeRoundTrip` | src/descriptor/bare.rs:80 | decoding the CompactSize encoding of `n`, followed by anything, gives back `n` and what follows |
| `Util.CompactSizeCanonical` | src/descriptor/bare.rs:80 | whatever the decoder accepts is exactly the encoding of the value it reads, so the length `varint_len` measures is the only encoding |
| `Util.WideCompactSizeCanonical` | src/descriptor/bare.rs:80 | the same canonicity for the 3-, 5- and 9-byte encodings |
| `Util.LittleEndianRoundTrip` | src/descriptor/bare.rs:272-275 | reading back `n` written as little-endian bytes gives `n` (the length fields of pushes and CompactSize) |
| `Util.FromLittleEndianRoundTrip` | src/descriptor/bare.rs:272-275 | writing back the value read from little-endian bytes gives the same bytes |
| `Util.NatToString` | src/descriptor/bare.rs:323-327 | the argument count in the `Pkh` error message is written as decimal digits, without a leading zero, whose value is the count |
| `Script.Push` | src/descriptor/bare.rs:272-275 | a push is the shortest push opcode and length field for the data, followed by the data itself |
| `Script.PushRoundTrip` | src/descriptor/bare.rs:272-275 | reading a push back gives the pushed data and exactly the bytes after it |
| `Expression.Terminal` | src/descriptor/bare.rs:319-321 | a leaf is converted, with the converter's error turned into `Unexpected`; a node with arguments is refused with `Unexpected(name)` |
| `Descriptor.WithChecksum` | src/descriptor/bare.rs:133-139 | the rendered text is the body, then `#`, then the checksum |
| `Descriptor.PkhShapeMessage` | src/descriptor/bare.rs:323-327 | the `Pkh` shape error is the root name, `(`, the decimal argument count, then ` args) while parsing pkh descriptor` |
| `Descriptor.FromStack` | src/descriptor/bare.rs:107-110 | a satisfaction stack becomes an empty witness and the stack converted by `witness_to_scriptsig`; a stack error is returned unchanged |
| `Descriptor.StripPrefix` | src/descriptor/bare.rs:153-156 | the tree handed to the term parser has the root name without `el` and the same arguments |
| `Descriptor.Bare.New` | src/descriptor/bare.rs:47-61 | `new` succeeds exactly when the top-level checks accept the term, and propagates their error otherwise; on success the descriptor is valid and `as_inner`/`into_inner` give back the term unchanged |
| `Descriptor.Bare.MaxSatisfactionWeight` | src/descriptor/bare.rs:78-81 | the bound is `4 * (varint_len(s) + s)` for the term's maximum satisfaction size `s`; an error of the size oracle is returned unchanged |
| `Descriptor.Bare.GetSatisfaction` | src/descriptor/bare.rs:103-111 | for any satisfier type, succeeds exactly when the term's satisfier does; the witness is empty and the scriptSig is the satisfaction stack converted by `witness_to_scriptsig`; the satisfier's error is returned unchanged |
| `Descriptor.Bare.GetSatisfactionMall` | src/descriptor/bare.rs:116-124 | the same over the term's malleable satisfier |
| `Descriptor.Bare.Lift` | src/descriptor/bare.rs:142-146 | the lifted policy is the term's lifted policy |
| `Descriptor.Bare.FromTree` | src/descriptor/bare.rs:150-163 | a root without the `el` prefix gives `Unexpected("Not an elements descriptor")`; otherwise the term parsed from the tree without the prefix goes through the gate exactly once (the duplicated check changes nothing), and parser and check errors are returned unchanged |
| `Descriptor.Bare.FromStrAsWritten` | src/descriptor/bare.rs:169-173 | as written: a checksum error is returned; a stripped text under two characters panics; otherwise the tree parsed from the text after its first two characters goes to `from_tree` |
| `Descriptor.Bare.FromStr` | src/descriptor/bare.rs:169-173 | corrected: checksum and tree-parser errors are returned, otherwise the whole stripped text's tree goes to `from_tree`; a success is valid |
| `Descriptor.Bare.Body` | src/descriptor/bare.rs:137 | the body is `el` followed by the term's own text |
| `Descriptor.Bare.Render` | src/descriptor/bare.rs:133-139 | the rendered text is the body, `#`, then the checksum of the body |
| `Descriptor.Bare.ForEachKey` | src/descriptor/bare.rs:176-183 | key traversal is the term's traversal with the same predicate |
| `Descriptor.Bare.TranslatePk` | src/descriptor/bare.rs:185-193 | requires that the gate accepts every successfully translated term (the source's `expect`); then it succeeds exactly when the term translation does, gives a valid descriptor over the translated term, and returns the translator's error unchanged |
| `Descriptor.Pkh.New` | src/descriptor/bare.rs:204-218 | `new` accepts any key, and `as_inner`/`into_inner` give it back |
| `Descriptor.Pkh.MaxSatisfactionWeight` | src/descriptor/bare.rs:226-228 | the bound is `4 * (1 + 73 + pk_len(pk))` for every key; it cannot fail |
| `Descriptor.Pkh.GetSatisfaction` | src/descriptor/bare.rs:266-281 | succeeds exactly when the satisfier has a signature for the key: empty witness, scriptSig = push(signature) then push(public key); otherwise `MissingSig` with the key's public key, never an empty success |
| `Descriptor.Pkh.GetSatisfactionMall` | src/descriptor/bare.rs:286-291 | the malleable satisfaction is identical to the non-malleable one |
| `Descriptor.Pkh.Lift` | src/descriptor/bare.rs:309-313 | lifting always succeeds with the policy `Key(pk)` |
| `Descriptor.Pkh.FromTree` | src/descriptor/bare.rs:317-329 | succeeds exactly for root `elpkh` with one argument that is a leaf the key parser accepts, giving `Pkh::new` of that key; any other name or argument count gives `Unexpected("<name>(<count> args) while parsing pkh descriptor")`; a non-leaf argument gives `Unexpected(<its name>)`; a leaf the key parser rejects gives `Unexpected(<parser error>)` |
| `Descriptor.Pkh.FromStr` | src/descriptor/bare.rs:332-340 | checksum and tree-parser errors are returned, otherwise the whole stripped text's tree goes to `from_tree`; nothing is cut off |
| `Descriptor.Pkh.Body` | src/descriptor/bare.rs:304 | the body is `elpkh(`, the key's text, then `)` |
| `Descriptor.Pkh.Render` | src/descriptor/bare.rs:300-306 | the rendered text is the body, `#`, then the checksum of the body |
| `Descriptor.Pkh.ForEachKey` | src/descriptor/bare.rs:342-349 | key traversal is the predicate applied to the one key |
| `Descriptor.Pkh.TranslatePk` | src/descriptor/bare.rs:351-360 | succeeds exactly when the translator maps the key, giving `Pkh::new` of the new key; the translator's error is returned unchanged |
| `BareProperties.PkhScriptSigReadsBack` | src/descriptor/bare.rs:270-277 | a `Pkh` scriptSig reads back as exactly two pushes: the signature, then the public key |
| `BareProperties.PkhWeightBound` | src/descriptor/bare.rs:220-228 | every `Pkh` satisfaction with a signature of at most 72 bytes (73 with its push) and a key push within `pk_len` weighs at most the bound, and exactly the bound at those maxima |
| `BareProperties.PkhWeightBoundExceeded` | src/descriptor/bare.rs:220-228 | the bound rests on the 73-byte assumption of the source's comment: a 73-byte raw signature (74 with its push) weighs exactly 4 units over it |
| `BareProperties.BareWeightBound` | src/descriptor/bare.rs:69-81 | a `Bare` satisfaction whose scriptSig is within the term's maximum satisfaction size weighs at most the bound |
| `BareProperties.PkhForEachKeyMatchesLift` | src/descriptor/bare.rs:309-313 | the keys of a lifted `Pkh` are exactly its one key, and traversal holds iff the predicate holds on all of them |
| `BareProperties.PkhTreeRoundTrip` | src/descriptor/bare.rs:317-321 | `elpkh` over the leaf of a key's text parses back to that key's descriptor |
| `BareProperties.PkhRoundTrip` | src/descriptor/bare.rs:300-306 | a rendered `Pkh` parses back to itself through `from_str` |
| `BareProperties.BareRoundTrip` | src/descriptor/bare.rs:133-139 | a rendered valid `Bare` parses back to itself through the corrected `FromStr` |
| `BareProperties.BareFromStrAsWrittenRejectsRender` | src/descriptor/bare.rs:169-173 | as written, `from_str` refuses every rendered `Bare` whose term text has a root without the `el` prefix, with `Unexpected("Not an elements descriptor")` |
| `BareProperties.BareFromStrShortText` | src/descriptor/bare.rs:171 | as written, a stripped text under two characters panics; the corrected `FromStr` returns an error for it |
| `BareProperties.PkhTranslateRoundTrip` | src/descriptor/bare.rs:354-359 | translating a `Pkh` and back with an inverse translator gives the original |
| `BareProperties.BareTranslateRoundTrip` | src/descriptor/bare.rs:188-193 | translating a `Bare` and back gives the original when the term translations are inverse on its term |

## Left out

- `Bare::script_pubkey`, `inner_script` and `ecdsa_sighash_script_code` (lines 86-98) encode the term; that encoding is term-level and not part of this model.
- `Pkh::script_pubkey`, `address`, `inner_script` and `ecdsa_sighash_script_code` (lines 233-261) build pay-to-pubkey-hash scripts through the ledger library's address type (HASH160, network parameters); that library is not part of this model.
- `Bare::sanity_check` (lines 64-67) only forwards to the term's own check; term-level analysis is not part of this model.
- The checksum algorithm and `verify_checksum` (checksum.rs) are not part of this model: rendering takes the checksum as a function, and parsing takes the verifier as a function from text to stripped text or error.
- `expression::Tree::from_str` is not part of this model: the tree parser is a parameter, and the round-trip lemmas state what they need of it.
- `Miniscript` term operations, `BareCtx::top_level_checks`, `BareCtx::pk_len` and `witness_to_scriptsig` (util.rs) are parameters. Their own behaviour is not part of this model.
- Signing, `elementssig_to_rawsig` and `to_public_key` are foreign cryptography. Signatures and public keys are byte sequences of their serialized lengths.
- The translator's hash-translation methods and the policy's hash-lock and time-lock atoms are term-level and not used by this file.
- `Debug` output, the derived ordering, equality and hashing, and the alternate (`{:#}`) rendering without a checksum are not modelled.
- `for_each_key` takes a pure predicate: the Rust closure may carry mutable state, but nothing in this file depends on it.
- Descriptor.Bare.MaxSatisfactionWeight: computed on unbounded integers; the `usize` overflow of `4 * (...)` is not modelled, as script sizes stay far below it.
- Descriptor.Pkh.MaxSatisfactionWeight: computed on unbounded integers; `usize` overflow is not modelled.
- Script.Push: requires data under 4 GiB, where the builder panics instead.
- Descriptor.Bare.TranslatePk: the `expect` panic on a gate failure after translation is a precondition, not a modelled panic.
- Strings are character sequences. The two characters `from_str` cuts off are bytes in the source; the checksum verifier refuses non-ASCII text first, so bytes and characters coincide there.

## Findings

| source | as written | input that shows it | evidently intended | confidence | as-written member | corrected member |
|---|---|---|---|---|---|---|
| src/descriptor/bare.rs:171 | `from_str` slices the checksum-stripped text from byte 2 without checking its length | `e#` followed by the checksum of `e`: the stripped text `e` is one byte long and the slice panics | return an error for malformed input, as every other parse path does | medium, not executed | `BareProperties.BareFromStrShortText` | `Descriptor.Bare.FromStr` |
| src/descriptor/bare.rs:171 | `from_str` drops the `el` prefix before tree parsing, and `from_tree` (line 152) then demands it again on the root | the rendering of any `Bare`, such as `elpk(<key>)#<checksum>`: the tree root is `pk`, so the result is `Unexpected("Not an elements descriptor")` | parse the whole stripped text, as `Pkh::from_str` does, so that a rendered `Bare` parses back to itself | high, not executed | `BareProperties.BareFromStrAsWrittenRejectsRender` | `BareProperties.BareRoundTrip` |
