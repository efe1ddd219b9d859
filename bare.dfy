/** The two bare (unwrapped) output descriptors of the Elements ledger:
    `Bare`, which wraps a Miniscript term checked against the bare script
    context, and `Pkh`, which wraps a single key.

    The Miniscript term is a type parameter `M`; what the term itself does
    (its top-level checks, parsing, satisfaction, size bound, lifting, key
    traversal and translation) is passed in as functions, so every property
    below holds whatever those collaborators do. */
module Descriptor {
  import opened Results
  import opened Util
  import opened Script
  import opened Miniscript
  import opened Expression

  /** The prefix of every Elements descriptor (`ELMTS_STR`). */
  const ELMTS_STR: string := "el"

  /** The root name `Pkh::from_tree` accepts. */
  const PKH_NAME: string := ELMTS_STR + "pkh"

  const NOT_ELEMENTS: string := "Not an elements descriptor"

  /** A descriptor body followed by `#` and its checksum, as
      `checksum::Formatter` writes it in non-alternate mode. */
  function WithChecksum(body: string, checksum: string -> string): (text: string)
    ensures |text| > |body| && text[..|body|] == body && text[|body|] == '#'
    ensures text[|body| + 1..] == checksum(body)
  {
    body + "#" + checksum(body)
  }

  /** A tree with the Elements prefix removed from its root name; the
      arguments are kept. */
  function StripPrefix(top: Tree): (t: Tree)
    requires StartsWith(top.name, ELMTS_STR)
    ensures ELMTS_STR + t.name == top.name && t.args == top.args
  {
    Tree(top.name[|ELMTS_STR|..], top.args)
  }

  /** The `Unexpected` message of `Pkh::from_tree` for a wrong root. */
  function PkhShapeMessage(top: Tree): (m: string)
    ensures StartsWith(m, top.name + "(")
    ensures var digits := NatToString(|top.args|);
      |m| > |top.name| + 1 + |digits|
      && m[|top.name| + 1..|top.name| + 1 + |digits|] == digits
      && DecimalValue(digits) == |top.args|
      && m[|top.name| + 1 + |digits|..] == " args) while parsing pkh descriptor"
  {
    top.name + "(" + NatToString(|top.args|) + " args) while parsing pkh descriptor"
  }

  /** A bare descriptor over a Miniscript term of type `M`. Values built by
      `New`, `FromTree`, `FromStr` or `TranslatePk` are `Valid` for the
      checks they were built with. */
  datatype Bare<M> = Bare(ms: M) {

    /** The invariant: the wrapped term passes the bare context's top-level checks. */
    predicate Valid(topLevelChecks: M -> Result<(), Error>) {
      topLevelChecks(ms).Ok?
    }

    /** The validation gate (`Bare::new`). */
    static function New(ms: M, topLevelChecks: M -> Result<(), Error>): (r: Result<Bare<M>, Error>)
      ensures r.Ok? <==> topLevelChecks(ms).Ok?
      ensures r.Ok? ==> r.value.Valid(topLevelChecks)
      ensures r.Ok? ==> r.value.AsInner() == ms && r.value.IntoInner() == ms
      ensures r.Err? ==> r.error == topLevelChecks(ms).error
    {
      match topLevelChecks(ms)
      case Err(e) => Err(e)
      case Ok(_) => Ok(Bare(ms))
    }

    function IntoInner(): M {
      ms
    }

    function AsInner(): M {
      ms
    }

    /** Upper bound on the weight of a satisfying scriptSig, from the
        term's maximum satisfaction size. */
    function MaxSatisfactionWeight(maxSatisfactionSize: M -> Result<nat, Error>): (r: Result<nat, Error>)
      ensures r.Ok? <==> maxSatisfactionSize(ms).Ok?
      ensures r.Ok? ==> r.value == ScriptSigWeight(maxSatisfactionSize(ms).value)
      ensures r.Err? ==> r.error == maxSatisfactionSize(ms).error
    {
      match maxSatisfactionSize(ms)
      case Err(e) => Err(e)
      case Ok(size) => Ok(4 * (VarintLen(size) + size))
    }

    /** Non-malleable satisfaction: the term's satisfaction stack, turned
        into a scriptSig, with an empty witness. */
    function GetSatisfaction<S>(
      satisfier: S,
      satisfy: (M, S) -> Result<seq<Bytes>, Error>,
      witnessToScriptSig: seq<Bytes> -> Bytes): (r: Result<Satisfaction, Error>)
      ensures r.Ok? <==> satisfy(ms, satisfier).Ok?
      ensures r.Ok? ==> r.value.witnessStack == []
      ensures r.Ok? ==> r.value.scriptSig == witnessToScriptSig(satisfy(ms, satisfier).value)
      ensures r.Err? ==> r.error == satisfy(ms, satisfier).error
    {
      FromStack(satisfy(ms, satisfier), witnessToScriptSig)
    }

    /** Possibly malleable satisfaction: as `GetSatisfaction`, over the
        term's malleable satisfier. */
    function GetSatisfactionMall<S>(
      satisfier: S,
      satisfyMalleable: (M, S) -> Result<seq<Bytes>, Error>,
      witnessToScriptSig: seq<Bytes> -> Bytes): (r: Result<Satisfaction, Error>)
      ensures r.Ok? <==> satisfyMalleable(ms, satisfier).Ok?
      ensures r.Ok? ==> r.value.witnessStack == []
      ensures r.Ok? ==> r.value.scriptSig == witnessToScriptSig(satisfyMalleable(ms, satisfier).value)
      ensures r.Err? ==> r.error == satisfyMalleable(ms, satisfier).error
    {
      FromStack(satisfyMalleable(ms, satisfier), witnessToScriptSig)
    }

    /** The semantic policy, as the term lifts it. */
    function Lift<K>(lift: M -> Result<Policy<K>, Error>): (r: Result<Policy<K>, Error>)
      ensures r == lift(ms)
    {
      lift(ms)
    }

    /** Parses a bare descriptor from a tree whose root carries the
        Elements prefix. */
    static function FromTree(
      top: Tree,
      termFromTree: Tree -> Result<M, Error>,
      topLevelChecks: M -> Result<(), Error>): (r: Result<Bare<M>, Error>)
      ensures !StartsWith(top.name, ELMTS_STR) ==> r == Err(Unexpected(NOT_ELEMENTS))
      ensures r.Ok? <==>
        StartsWith(top.name, ELMTS_STR)
        && termFromTree(StripPrefix(top)).Ok?
        && topLevelChecks(termFromTree(StripPrefix(top)).value).Ok?
      ensures r.Ok? ==> r.value.ms == termFromTree(StripPrefix(top)).value
      ensures StartsWith(top.name, ELMTS_STR) && termFromTree(StripPrefix(top)).Err? ==>
        r == Err(termFromTree(StripPrefix(top)).error)
      // the duplicated top-level check leaves exactly one run of the gate
      ensures StartsWith(top.name, ELMTS_STR) && termFromTree(StripPrefix(top)).Ok? ==>
        r == New(termFromTree(StripPrefix(top)).value, topLevelChecks)
    {
      if StartsWith(top.name, ELMTS_STR) then
        var newTree := Tree(top.name[2..], top.args);
        match termFromTree(newTree)
        case Err(e) => Err(e)
        case Ok(sub) =>
          match topLevelChecks(sub)
          case Err(e) => Err(e)
          case Ok(_) => New(sub, topLevelChecks)
      else
        Err(Unexpected(NOT_ELEMENTS))
    }

    /** `Bare::from_str` as written: after the checksum is verified, the
        first two characters are cut off before tree parsing, and the
        tree's root must then still start with the Elements prefix. Cutting
        a text shorter than two characters panics. */
    static function FromStrAsWritten(
      s: string,
      verifyChecksum: string -> Result<string, Error>,
      treeFromStr: string -> Result<Tree, Error>,
      termFromTree: Tree -> Result<M, Error>,
      topLevelChecks: M -> Result<(), Error>): (r: Run<Result<Bare<M>, Error>>)
      ensures verifyChecksum(s).Err? ==> r == Returns(Err(verifyChecksum(s).error))
      ensures verifyChecksum(s).Ok? && |verifyChecksum(s).value| < 2 ==> r.Panics?
      ensures verifyChecksum(s).Ok? && |verifyChecksum(s).value| >= 2 ==>
        var tree := treeFromStr(verifyChecksum(s).value[2..]);
        r == Returns(if tree.Err? then Err(tree.error) else FromTree(tree.value, termFromTree, topLevelChecks))
    {
      match verifyChecksum(s)
      case Err(e) => Returns(Err(e))
      case Ok(descStr) =>
        if |descStr| < 2 then
          Panics("byte index 2 is out of range of `" + descStr + "`")
        else
          match treeFromStr(descStr[2..])
          case Err(e) => Returns(Err(e))
          case Ok(top) => Returns(FromTree(top, termFromTree, topLevelChecks))
    }

    /** `Bare::from_str` corrected: the checksum-stripped text is parsed
        whole, and `FromTree` alone deals with the prefix. */
    static function FromStr(
      s: string,
      verifyChecksum: string -> Result<string, Error>,
      treeFromStr: string -> Result<Tree, Error>,
      termFromTree: Tree -> Result<M, Error>,
      topLevelChecks: M -> Result<(), Error>): (r: Result<Bare<M>, Error>)
      ensures verifyChecksum(s).Err? ==> r == Err(verifyChecksum(s).error)
      ensures verifyChecksum(s).Ok? && treeFromStr(verifyChecksum(s).value).Err? ==>
        r == Err(treeFromStr(verifyChecksum(s).value).error)
      ensures verifyChecksum(s).Ok? && treeFromStr(verifyChecksum(s).value).Ok? ==>
        r == FromTree(treeFromStr(verifyChecksum(s).value).value, termFromTree, topLevelChecks)
      ensures r.Ok? ==> r.value.Valid(topLevelChecks)
    {
      match verifyChecksum(s)
      case Err(e) => Err(e)
      case Ok(descStr) =>
        match treeFromStr(descStr)
        case Err(e) => Err(e)
        case Ok(top) => FromTree(top, termFromTree, topLevelChecks)
    }

    /** The descriptor body: the prefix and the term's own text. */
    function Body(display: M -> string): (body: string)
      ensures StartsWith(body, ELMTS_STR) && body[|ELMTS_STR|..] == display(ms)
    {
      ELMTS_STR + display(ms)
    }

    /** The rendered descriptor (`Display`): body, `#`, checksum. */
    function Render(display: M -> string, checksum: string -> string): (text: string)
      ensures |text| > |Body(display)| && StartsWith(text, Body(display)) && text[|Body(display)|] == '#'
      ensures text[|Body(display)| + 1..] == checksum(Body(display))
    {
      WithChecksum(Body(display), checksum)
    }

    /** Key traversal, forwarded to the term. */
    function ForEachKey<K>(pred: K -> bool, forEachKey: (M, K -> bool) -> bool): (r: bool)
      ensures r == forEachKey(ms, pred)
    {
      forEachKey(ms, pred)
    }

    /** Key translation: translate the term, then run it through the gate
        again. The source asserts that the gate passes (`expect`); here that
        is the precondition. */
    function TranslatePk<N, P, Q, E>(
      t: Translator<P, Q, E>,
      translateTerm: (M, Translator<P, Q, E>) -> Result<N, E>,
      topLevelChecks: N -> Result<(), Error>): (r: Result<Bare<N>, E>)
      requires translateTerm(ms, t).Ok? ==> topLevelChecks(translateTerm(ms, t).value).Ok?
      ensures r.Ok? <==> translateTerm(ms, t).Ok?
      ensures r.Ok? ==> r.value.ms == translateTerm(ms, t).value && r.value.Valid(topLevelChecks)
      ensures r.Err? ==> r.error == translateTerm(ms, t).error
    {
      match translateTerm(ms, t)
      case Err(e) => Err(e)
      case Ok(translated) =>
        var checked := Bare<N>.New(translated, topLevelChecks);
        Ok(checked.value)
    }
  }

  /** Wraps a satisfaction stack as a legacy spend: no witness, the stack
      as scriptSig. */
  function FromStack(stack: Result<seq<Bytes>, Error>, witnessToScriptSig: seq<Bytes> -> Bytes): (r: Result<Satisfaction, Error>)
    ensures r.Ok? <==> stack.Ok?
    ensures r.Ok? ==> r.value.witnessStack == [] && r.value.scriptSig == witnessToScriptSig(stack.value)
    ensures r.Err? ==> r.error == stack.error
  {
    match stack
    case Err(e) => Err(e)
    case Ok(items) => Ok(Satisfaction([], witnessToScriptSig(items)))
  }

  /** A bare pay-to-pubkey-hash descriptor over a key of type `K`. Any key
      is valid. */
  datatype Pkh<K> = Pkh(pk: K) {

    static function New(pk: K): (r: Pkh<K>)
      ensures r.AsInner() == pk && r.IntoInner() == pk
    {
      Pkh(pk)
    }

    function AsInner(): K {
      pk
    }

    function IntoInner(): K {
      pk
    }

    /** Upper bound on the weight of a satisfying scriptSig: one length
        byte, a 73-byte signature push, and the key's length in the bare
        context (`pkLen`, the context's `pk_len`). */
    function MaxSatisfactionWeight(pkLen: K -> nat): (w: nat)
      ensures w == 4 * (1 + 73 + pkLen(pk))
    {
      4 * (1 + 73 + pkLen(pk))
    }

    /** Satisfaction: a scriptSig pushing the signature, then the public
        key; or `MissingSig` for that public key. */
    function GetSatisfaction(satisfier: Satisfier<K>, keys: KeyOps<K>): (r: Result<Satisfaction, Error>)
      ensures r.Ok? <==> satisfier.lookupEcdsaSig(pk).Some?
      ensures r.Ok? ==> r.value.witnessStack == []
      ensures r.Ok? ==>
        r.value.scriptSig == Push(satisfier.lookupEcdsaSig(pk).value) + Push(keys.toPublicKey(pk))
      ensures r.Err? ==> r.error == MissingSig(keys.toPublicKey(pk))
    {
      match satisfier.lookupEcdsaSig(pk)
      case Some(sig) =>
        var scriptSig := Push(sig) + Push(keys.toPublicKey(pk));
        Ok(Satisfaction([], scriptSig))
      case None =>
        Err(MissingSig(keys.toPublicKey(pk)))
    }

    /** Malleable satisfaction: a single-key spend has one shape, so it is
        the non-malleable one. */
    function GetSatisfactionMall(satisfier: Satisfier<K>, keys: KeyOps<K>): (r: Result<Satisfaction, Error>)
      ensures r == GetSatisfaction(satisfier, keys)
    {
      GetSatisfaction(satisfier, keys)
    }

    /** The semantic policy: this key must sign. */
    function Lift(): (r: Result<Policy<K>, Error>)
      ensures r == Ok(Key(pk))
    {
      Ok(Key(pk))
    }

    /** Parses `elpkh(<key>)`: exactly that root name and one argument,
        which must be a leaf the key parser accepts. */
    static function FromTree(top: Tree, keys: KeyOps<K>): (r: Result<Pkh<K>, Error>)
      ensures r.Ok? <==>
        top.name == PKH_NAME && |top.args| == 1
        && top.args[0].args == [] && keys.fromStr(top.args[0].name).Ok?
      ensures r.Ok? ==> r.value == New(keys.fromStr(top.args[0].name).value)
      ensures !(top.name == PKH_NAME && |top.args| == 1) ==> r == Err(Unexpected(PkhShapeMessage(top)))
      ensures top.name == PKH_NAME && |top.args| == 1 && top.args[0].args != [] ==>
        r == Err(Unexpected(top.args[0].name))
      ensures top.name == PKH_NAME && |top.args| == 1 && top.args[0].args == [] && keys.fromStr(top.args[0].name).Err? ==>
        r == Err(Unexpected(keys.fromStr(top.args[0].name).error))
    {
      if top.name == "elpkh" && |top.args| == 1 then
        match Terminal(top.args[0], keys.fromStr)
        case Err(e) => Err(e)
        case Ok(key) => Ok(New(key))
      else
        Err(Unexpected(PkhShapeMessage(top)))
    }

    /** `Pkh::from_str`: checksum, then the whole text is parsed as a tree. */
    static function FromStr(
      s: string,
      verifyChecksum: string -> Result<string, Error>,
      treeFromStr: string -> Result<Tree, Error>,
      keys: KeyOps<K>): (r: Result<Pkh<K>, Error>)
      ensures verifyChecksum(s).Err? ==> r == Err(verifyChecksum(s).error)
      ensures verifyChecksum(s).Ok? && treeFromStr(verifyChecksum(s).value).Err? ==>
        r == Err(treeFromStr(verifyChecksum(s).value).error)
      ensures verifyChecksum(s).Ok? && treeFromStr(verifyChecksum(s).value).Ok? ==>
        r == FromTree(treeFromStr(verifyChecksum(s).value).value, keys)
    {
      match verifyChecksum(s)
      case Err(e) => Err(e)
      case Ok(descStr) =>
        match treeFromStr(descStr)
        case Err(e) => Err(e)
        case Ok(top) => FromTree(top, keys)
    }

    /** The descriptor body `elpkh(<key>)`. */
    function Body(keys: KeyOps<K>): (body: string)
      ensures StartsWith(body, PKH_NAME + "(") && body[|body| - 1] == ')'
      ensures body[|PKH_NAME| + 1..|body| - 1] == keys.display(pk)
    {
      PKH_NAME + "(" + keys.display(pk) + ")"
    }

    /** The rendered descriptor (`Display`): body, `#`, checksum. */
    function Render(keys: KeyOps<K>, checksum: string -> string): (text: string)
      ensures |text| > |Body(keys)| && StartsWith(text, Body(keys)) && text[|Body(keys)|] == '#'
      ensures text[|Body(keys)| + 1..] == checksum(Body(keys))
    {
      WithChecksum(Body(keys), checksum)
    }

    /** Key traversal: the predicate on the one key. */
    function ForEachKey(pred: K -> bool): (r: bool)
      ensures r == pred(pk)
    {
      pred(pk)
    }

    /** Key translation: the translated key, wrapped again. */
    function TranslatePk<Q, E>(t: Translator<K, Q, E>): (r: Result<Pkh<Q>, E>)
      ensures r.Ok? <==> t.pk(pk).Ok?
      ensures r.Ok? ==> r.value == Pkh<Q>.New(t.pk(pk).value)
      ensures r.Err? ==> r.error == t.pk(pk).error
    {
      match t.pk(pk)
      case Err(e) => Err(e)
      case Ok(key) => Ok(Pkh<Q>.New(key))
    }
  }
}
