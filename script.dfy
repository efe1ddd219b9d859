/** Script pushes as the script builder writes them (`Builder::push_slice` and
    `Builder::push_key`), and a reader for them. */
module Script {
  import opened Results
  import opened Util

  const OP_PUSHDATA1: byte := 0x4c
  const OP_PUSHDATA2: byte := 0x4d
  const OP_PUSHDATA4: byte := 0x4e

  /** The builder refuses (panics on) a push of 4 GiB or more. */
  const PUSH_LIMIT: nat := 0x1_0000_0000

  /** Bytes the push opcode and its length field take before the data. */
  function PushPrefixLen(n: nat): nat {
    if n < 0x4c then 1 else if n < 0x100 then 2 else if n < 0x10000 then 3 else 5
  }

  /** The shortest-opcode push of `data`: a direct push below 0x4c bytes,
      otherwise OP_PUSHDATA1/2/4 with a little-endian length. */
  function Push(data: Bytes): (script: Bytes)
    requires |data| < PUSH_LIMIT
    ensures |script| == PushPrefixLen(|data|) + |data|
    ensures script[PushPrefixLen(|data|)..] == data
  {
    var n := |data|;
    var prefix :=
      if n < 0x4c then [n]
      else if n < 0x100 then [OP_PUSHDATA1, n]
      else if n < 0x10000 then [OP_PUSHDATA2] + LittleEndian(n, 2)
      else [OP_PUSHDATA4] + LittleEndian(n, 4);
    prefix + data
  }

  /** Splits `bs` after its first `n` bytes, if there are that many. */
  function Take(n: nat, bs: Bytes): (r: Option<(Bytes, Bytes)>)
    ensures r.Some? ==> r.value.0 + r.value.1 == bs
  {
    if n <= |bs| then Some((bs[..n], bs[n..])) else None
  }

  /** Reads one push off the front of a script: the pushed data and the rest. */
  function ReadPush(script: Bytes): (r: Option<(Bytes, Bytes)>)
    ensures r.Some? ==> |r.value.1| < |script|
  {
    if script == [] then None
    else
      var op := script[0];
      if op < 0x4c then Take(op, script[1..])
      else if op == OP_PUSHDATA1 || op == OP_PUSHDATA2 || op == OP_PUSHDATA4 then
        var width := if op == OP_PUSHDATA1 then 1 else if op == OP_PUSHDATA2 then 2 else 4;
        if |script| < 1 + width then None
        else Take(FromLittleEndian(script[1..1 + width]), script[1 + width..])
      else None
  }

  /** Reading back a push gives the pushed data, whatever follows it. */
  lemma PushRoundTrip(data: Bytes, rest: Bytes)
    requires |data| < PUSH_LIMIT
    ensures ReadPush(Push(data) + rest) == Some((data, rest))
  {
    var n := |data|;
    var script := Push(data) + rest;
    var k := PushPrefixLen(n);
    assert script[k..] == data + rest;
    if 0x100 <= n < 0x10000 {
      assert script[1..3] == LittleEndian(n, 2);
      LittleEndianRoundTrip(n, 2);
    } else if 0x10000 <= n {
      assert script[1..5] == LittleEndian(n, 4);
      LittleEndianRoundTrip(n, 4);
    }
  }

  /** Reads a script made only of pushes into the items it pushes. */
  function ReadPushes(script: Bytes): Option<seq<Bytes>>
    decreases |script|
  {
    if script == [] then Some([])
    else
      match ReadPush(script)
      case None => None
      case Some((item, rest)) =>
        match ReadPushes(rest)
        case None => None
        case Some(items) => Some([item] + items)
  }
}
