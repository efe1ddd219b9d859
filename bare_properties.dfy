/** Properties that relate several operations of the bare descriptors:
    satisfactions read back and stay within the weight bounds, rendering
    parses back, and translation with an inverse translator gives back the
    original descriptor. */
module BareProperties {
  import opened Results
  import opened Util
  import opened Script
  import opened Miniscript
  import opened Expression
  import opened Descriptor

  /** A `Pkh` scriptSig is exactly two pushes: the signature, then the
      public key. */
  lemma PkhScriptSigReadsBack<K>(p: Pkh<K>, satisfier: Satisfier<K>, keys: KeyOps<K>)
    requires satisfier.lookupEcdsaSig(p.pk).Some?
    ensures p.GetSatisfaction(satisfier, keys).Ok?
    ensures ReadPushes(p.GetSatisfaction(satisfier, keys).value.scriptSig)
      == Some([satisfier.lookupEcdsaSig(p.pk).value, keys.toPublicKey(p.pk)])
  {
    var sig := satisfier.lookupEcdsaSig(p.pk).value;
    var pub := keys.toPublicKey(p.pk);
    var keyPush := Push(pub);
    PushRoundTrip(sig, keyPush);
    PushRoundTrip(pub, []);
    assert keyPush + [] == keyPush;
    assert ReadPush(keyPush) == Some((pub, []));
    assert keyPush != [] && ReadPushes([]) == Some([]);
    assert [pub] + [] == [pub];
    assert ReadPushes(keyPush) == Some([pub]);
    var scriptSig := Push(sig) + keyPush;
    assert ReadPush(scriptSig) == Some((sig, keyPush));
    assert scriptSig != [];
    assert ReadPushes(scriptSig) == Some([sig] + [pub]);
    assert [sig] + [pub] == [sig, pub];
    assert p.GetSatisfaction(satisfier, keys).value.scriptSig == scriptSig;
  }

  /** The `Pkh` weight bound holds for every satisfaction whose signature
      fits the 73 bytes the bound assumes (push opcode included) and whose
      key push fits the context's key length; it is reached exactly by a
      72-byte signature and a key push of that length. */
  lemma PkhWeightBound<K>(p: Pkh<K>, satisfier: Satisfier<K>, keys: KeyOps<K>, pkLen: K -> nat)
    requires satisfier.lookupEcdsaSig(p.pk).Some?
    requires |satisfier.lookupEcdsaSig(p.pk).value| <= 72
    requires |keys.toPublicKey(p.pk)| + 1 <= pkLen(p.pk)
    ensures p.GetSatisfaction(satisfier, keys).Ok?
    ensures ScriptSigWeight(|p.GetSatisfaction(satisfier, keys).value.scriptSig|)
      <= p.MaxSatisfactionWeight(pkLen)
    ensures |satisfier.lookupEcdsaSig(p.pk).value| == 72 && |keys.toPublicKey(p.pk)| + 1 == pkLen(p.pk) ==>
      ScriptSigWeight(|p.GetSatisfaction(satisfier, keys).value.scriptSig|) == p.MaxSatisfactionWeight(pkLen)
  {
    var sig := satisfier.lookupEcdsaSig(p.pk).value;
    var pub := keys.toPublicKey(p.pk);
    var len := |p.GetSatisfaction(satisfier, keys).value.scriptSig|;
    assert len == 1 + |sig| + 1 + |pub|;
    assert VarintLen(len) == 1;
  }

  /** The bound assumes 73 bytes for the signature push; a 73-byte raw
      signature (a 72-byte DER signature and its sighash byte, which the
      satisfier may return) weighs exactly 4 units over it. */
  lemma PkhWeightBoundExceeded<K>(p: Pkh<K>, satisfier: Satisfier<K>, keys: KeyOps<K>, pkLen: K -> nat)
    requires satisfier.lookupEcdsaSig(p.pk).Some?
    requires |satisfier.lookupEcdsaSig(p.pk).value| == 73
    requires |keys.toPublicKey(p.pk)| + 1 == pkLen(p.pk)
    ensures p.GetSatisfaction(satisfier, keys).Ok?
    ensures ScriptSigWeight(|p.GetSatisfaction(satisfier, keys).value.scriptSig|)
      == p.MaxSatisfactionWeight(pkLen) + 4
  {
    var sig := satisfier.lookupEcdsaSig(p.pk).value;
    var pub := keys.toPublicKey(p.pk);
    var len := |p.GetSatisfaction(satisfier, keys).value.scriptSig|;
    assert len == 1 + |sig| + 1 + |pub|;
    assert VarintLen(len) == 1;
  }

  /** A `Bare` satisfaction weighs no more than the bound whenever the
      term keeps its promise that the scriptSig is no longer than its
      maximum satisfaction size. */
  lemma BareWeightBound<M, S>(
    b: Bare<M>, satisfier: S,
    satisfy: (M, S) -> Result<seq<Bytes>, Error>,
    witnessToScriptSig: seq<Bytes> -> Bytes,
    maxSatisfactionSize: M -> Result<nat, Error>)
    requires b.GetSatisfaction(satisfier, satisfy, witnessToScriptSig).Ok?
    requires maxSatisfactionSize(b.ms).Ok?
    requires |b.GetSatisfaction(satisfier, satisfy, witnessToScriptSig).value.scriptSig|
      <= maxSatisfactionSize(b.ms).value
    ensures b.MaxSatisfactionWeight(maxSatisfactionSize).Ok?
    ensures ScriptSigWeight(|b.GetSatisfaction(satisfier, satisfy, witnessToScriptSig).value.scriptSig|)
      <= b.MaxSatisfactionWeight(maxSatisfactionSize).value
  {
    ScriptSigWeightMonotone(
      |b.GetSatisfaction(satisfier, satisfy, witnessToScriptSig).value.scriptSig|,
      maxSatisfactionSize(b.ms).value);
  }

  /** Key traversal on a `Pkh` visits exactly the keys of its lifted
      policy: the one key. */
  lemma PkhForEachKeyMatchesLift<K>(p: Pkh<K>, pred: K -> bool)
    ensures p.Lift().Ok? && PolicyKeys(p.Lift().value) == [p.pk]
    ensures p.ForEachKey(pred) <==> forall k :: k in PolicyKeys(p.Lift().value) ==> pred(k)
  {
    var keys := PolicyKeys(p.Lift().value);
    assert keys == [p.pk];
    assert p.pk in keys;
  }

  /** The tree of a `Pkh` body parses back to the descriptor. */
  lemma PkhTreeRoundTrip<K>(p: Pkh<K>, keys: KeyOps<K>)
    requires keys.fromStr(keys.display(p.pk)) == Ok(p.pk)
    ensures Pkh.FromTree(Tree(PKH_NAME, [Tree(keys.display(p.pk), [])]), keys) == Ok(p)
  {
  }

  /** A rendered `Pkh` parses back to itself, given a checksum verifier
      that accepts the rendered text, a tree parser that reads the body
      as `elpkh` over one leaf, and a key parser that reads back the key's
      text. */
  lemma PkhRoundTrip<K>(
    p: Pkh<K>, keys: KeyOps<K>,
    checksum: string -> string,
    verifyChecksum: string -> Result<string, Error>,
    treeFromStr: string -> Result<Tree, Error>)
    requires verifyChecksum(p.Render(keys, checksum)) == Ok(p.Body(keys))
    requires treeFromStr(p.Body(keys)) == Ok(Tree(PKH_NAME, [Tree(keys.display(p.pk), [])]))
    requires keys.fromStr(keys.display(p.pk)) == Ok(p.pk)
    ensures Pkh.FromStr(p.Render(keys, checksum), verifyChecksum, treeFromStr, keys) == Ok(p)
  {
    PkhTreeRoundTrip(p, keys);
  }

  /** A rendered `Bare` parses back to itself through the corrected
      `FromStr`, given a checksum verifier that accepts the rendered text,
      a tree parser that reads the body with the prefix on its root name,
      and a term parser that reads back the term's tree. */
  lemma BareRoundTrip<M>(
    b: Bare<M>,
    display: M -> string,
    checksum: string -> string,
    verifyChecksum: string -> Result<string, Error>,
    treeFromStr: string -> Result<Tree, Error>,
    termFromTree: Tree -> Result<M, Error>,
    topLevelChecks: M -> Result<(), Error>,
    root: Tree)
    requires b.Valid(topLevelChecks)
    requires verifyChecksum(b.Render(display, checksum)) == Ok(b.Body(display))
    requires treeFromStr(b.Body(display)) == Ok(Tree(ELMTS_STR + root.name, root.args))
    requires termFromTree(root) == Ok(b.ms)
    ensures Bare.FromStr(b.Render(display, checksum), verifyChecksum, treeFromStr, termFromTree, topLevelChecks)
      == Ok(b)
  {
    var top := Tree(ELMTS_STR + root.name, root.args);
    assert StartsWith(top.name, ELMTS_STR);
    assert StripPrefix(top) == root;
  }

  /** The source's `Bare::from_str` refuses every rendered `Bare` whose
      term text parses to a root without the Elements prefix (every
      Miniscript fragment name): the prefix is cut off before tree parsing
      and then demanded again by `from_tree`. */
  lemma BareFromStrAsWrittenRejectsRender<M>(
    b: Bare<M>,
    display: M -> string,
    checksum: string -> string,
    verifyChecksum: string -> Result<string, Error>,
    treeFromStr: string -> Result<Tree, Error>,
    termFromTree: Tree -> Result<M, Error>,
    topLevelChecks: M -> Result<(), Error>)
    requires verifyChecksum(b.Render(display, checksum)) == Ok(b.Body(display))
    requires treeFromStr(display(b.ms)).Ok?
    requires !StartsWith(treeFromStr(display(b.ms)).value.name, ELMTS_STR)
    ensures Bare.FromStrAsWritten(b.Render(display, checksum), verifyChecksum, treeFromStr, termFromTree, topLevelChecks)
      == Returns(Err(Unexpected(NOT_ELEMENTS)))
  {
    assert b.Body(display)[2..] == display(b.ms);
  }

  /** The source's `Bare::from_str` panics on every text whose
      checksum-stripped form is shorter than two characters, such as `e`;
      the corrected `FromStr` refuses such a text with an error, given a
      tree parser whose root name is part of the text it read. */
  lemma BareFromStrShortText<M>(
    s: string,
    verifyChecksum: string -> Result<string, Error>,
    treeFromStr: string -> Result<Tree, Error>,
    termFromTree: Tree -> Result<M, Error>,
    topLevelChecks: M -> Result<(), Error>)
    requires verifyChecksum(s).Ok? && |verifyChecksum(s).value| < 2
    requires treeFromStr(verifyChecksum(s).value).Ok? ==>
      |treeFromStr(verifyChecksum(s).value).value.name| <= |verifyChecksum(s).value|
    ensures Bare.FromStrAsWritten(s, verifyChecksum, treeFromStr, termFromTree, topLevelChecks).Panics?
    ensures Bare.FromStr(s, verifyChecksum, treeFromStr, termFromTree, topLevelChecks).Err?
  {
  }

  /** Translating a `Pkh` and translating back with an inverse translator
      gives back the original descriptor. */
  lemma PkhTranslateRoundTrip<K, Q, E>(p: Pkh<K>, t: Translator<K, Q, E>, u: Translator<Q, K, E>)
    requires t.pk(p.pk).Ok? && u.pk(t.pk(p.pk).value) == Ok(p.pk)
    ensures p.TranslatePk(t).Ok? && p.TranslatePk(t).value.TranslatePk(u) == Ok(p)
  {
  }

  /** Translating a `Bare` and translating back gives back the original
      descriptor whenever the term translations are inverse on its term. */
  lemma BareTranslateRoundTrip<M, N, K, Q, E>(
    b: Bare<M>,
    t: Translator<K, Q, E>, u: Translator<Q, K, E>,
    translateThere: (M, Translator<K, Q, E>) -> Result<N, E>,
    translateBack: (N, Translator<Q, K, E>) -> Result<M, E>,
    checksThere: N -> Result<(), Error>,
    checksBack: M -> Result<(), Error>)
    requires b.Valid(checksBack)
    requires translateThere(b.ms, t).Ok? && checksThere(translateThere(b.ms, t).value).Ok?
    requires translateBack(translateThere(b.ms, t).value, u) == Ok(b.ms)
    ensures b.TranslatePk(t, translateThere, checksThere).Ok?
    ensures b.TranslatePk(t, translateThere, checksThere).value.TranslatePk(u, translateBack, checksBack) == Ok(b)
  {
  }
}
