/** EVM call scripts: the encoder and the byte-level interpreter. */
module EvmScript {
  import opened Vocabulary

  type Byte = b: int | 0 <= b < 256

  datatype Action = Action(target: Address, data: seq<Byte>)

  const CALLSCRIPT_ID: seq<Byte> := [0, 0, 0, 1]
  const SCRIPT_START_LOCATION: nat := 4
  const ADDRESS_BYTES: nat := 0x14
  const HEADER_BYTES: nat := 0x18

  /** 2^32: the length field has four bytes. */
  const LENGTH_LIMIT: nat := 0x1_0000_0000

  // ---------------------------------------------------------------- big-endian numbers

  function Pow256(k: nat): (r: nat)
    ensures r > 0
  {
    if k == 0 then 1 else 256 * Pow256(k - 1)
  }

  /** The low k bytes of n, most significant first. */
  function BigEndian(n: nat, k: nat): (r: seq<Byte>)
    ensures |r| == k
  {
    if k == 0 then [] else BigEndian(n / 256, k - 1) + [n % 256]
  }

  function Number(bs: seq<Byte>): nat {
    if bs == [] then 0 else 256 * Number(bs[..|bs| - 1]) + bs[|bs| - 1]
  }

  /** Reading back k bytes of n gives n exactly when it fits, and something else when it does not. */
  lemma {:induction false} NumberOfBytes(n: nat, k: nat)
    ensures Number(BigEndian(n, k)) < Pow256(k)
    ensures n < Pow256(k) <==> Number(BigEndian(n, k)) == n
  {
    if k > 0 {
      NumberOfBytes(n / 256, k - 1);
      assert BigEndian(n, k)[..k - 1] == BigEndian(n / 256, k - 1);
    }
  }

  lemma {:induction false} BytesOfNumber(bs: seq<Byte>)
    ensures BigEndian(Number(bs), |bs|) == bs
    ensures Number(bs) < Pow256(|bs|)
  {
    if bs != [] {
      BytesOfNumber(bs[..|bs| - 1]);
      assert bs == bs[..|bs| - 1] + [bs[|bs| - 1]];
    }
  }

  lemma {:induction false} FieldWidths()
    ensures Pow256(ADDRESS_BYTES) == ADDRESS_LIMIT
    ensures Pow256(4) == LENGTH_LIMIT
  {
    assert Pow256(5) == 0x100_0000_0000;
    assert Pow256(10) == 0x100_0000_0000 * 0x100_0000_0000;
    assert Pow256(15) == 0x100_0000_0000 * 0x100_0000_0000 * 0x100_0000_0000;
  }

  // ---------------------------------------------------------------- encoding

  /** Address, length and calldata; of the length only the last four bytes are kept. */
  function EncodeAction(a: Action): seq<Byte> {
    BigEndian(a.target, ADDRESS_BYTES) + BigEndian(|a.data|, 4) + a.data
  }

  function EncodeCallScript(actions: seq<Action>): seq<Byte> {
    if actions == [] then CALLSCRIPT_ID
    else EncodeCallScript(actions[..|actions| - 1]) + EncodeAction(actions[|actions| - 1])
  }

  /** The encoded actions without the leading id. */
  function Body(actions: seq<Action>): seq<Byte> {
    if actions == [] then [] else EncodeAction(actions[0]) + Body(actions[1..])
  }

  lemma {:induction false} BodySnoc(actions: seq<Action>, a: Action)
    ensures Body(actions + [a]) == Body(actions) + EncodeAction(a)
  {
    if actions == [] {
      assert actions + [a] == [a] && [a][1..] == [];
    } else {
      assert (actions + [a])[1..] == actions[1..] + [a];
      BodySnoc(actions[1..], a);
    }
  }

  lemma {:induction false} ScriptIsIdAndBody(actions: seq<Action>)
    ensures EncodeCallScript(actions) == [0, 0, 0, 1] + Body(actions)
  {
    if actions != [] {
      var init, a := actions[..|actions| - 1], actions[|actions| - 1];
      assert actions == init + [a];
      ScriptIsIdAndBody(init);
      BodySnoc(init, a);
    }
  }

  /** Bytes are most significant first. */
  lemma {:induction false} ByteOfNumber(n: nat, k: nat, i: nat)
    requires i < k
    ensures BigEndian(n, k)[i] == n / Pow256(k - 1 - i) % 256
  {
    if i < k - 1 {
      ByteOfNumber(n / 256, k - 1, i);
      DivideTwice(n, Pow256(k - 2 - i));
    }
  }

  lemma {:induction false} DivideTwice(n: nat, p: nat)
    requires p > 0
    ensures n / 256 / p == n / (256 * p)
  {
    var a, q := n / 256, n / 256 / p;
    assert q * p <= a < q * p + p;
    assert 256 * (q * p) == q * (256 * p);
    assert q * (256 * p) <= n < q * (256 * p) + 256 * p;
    QuotientIs(n, 256 * p, q);
  }

  lemma {:induction false} QuotientIs(n: nat, m: nat, q: nat)
    requires m > 0 && q * m <= n < q * m + m
    ensures n / m == q
  {
    var r := n / m;
    assert r * m <= n < r * m + m;
    assert (r - q) * m == r * m - q * m && (q - r) * m == q * m - r * m;
    AtLeastOnce(r - q, m);
    AtLeastOnce(q - r, m);
  }

  lemma {:induction false} AtLeastOnce(x: int, m: nat)
    ensures x > 0 ==> x * m >= m
  {
    if x > 0 {
      assert (x - 1) * m >= 0;
    }
  }

  /** An encoded action is the twenty bytes of its target, the last four bytes of its calldata's length,
      each most significant first, and the calldata. */
  lemma {:induction false} ActionLayout(a: Action)
    ensures var bs := EncodeAction(a);
            && |bs| == 24 + |a.data|
            && (forall i :: 0 <= i < 20 ==> bs[i] == a.target / Pow256(19 - i) % 256)
            && (forall i :: 20 <= i < 24 ==> bs[i] == |a.data| / Pow256(23 - i) % 256)
            && bs[24..] == a.data
  {
    hide BigEndian, Pow256;
    var bs := EncodeAction(a);
    forall i | 0 <= i < 20 ensures bs[i] == a.target / Pow256(19 - i) % 256 {
      ByteOfNumber(a.target, 20, i);
    }
    forall i | 20 <= i < 24 ensures bs[i] == |a.data| / Pow256(23 - i) % 256 {
      ByteOfNumber(|a.data|, 4, i - 20);
    }
  }

  // ---------------------------------------------------------------- interpreting

  function AddressAt(script: seq<Byte>, location: nat): Address
    requires location + ADDRESS_BYTES <= |script|
  {
    FieldWidths();
    BytesOfNumber(script[location..location + ADDRESS_BYTES]);
    Number(script[location..location + ADDRESS_BYTES])
  }

  function Uint32At(script: seq<Byte>, location: nat): nat
    requires location + 4 <= |script|
  {
    Number(script[location..location + 4])
  }

  /** The actions framed from location to the end of the script; None if the framing is broken. */
  function Parse(script: seq<Byte>, location: nat): Option<seq<Action>>
    decreases |script| - location
  {
    if |script| <= location then Some([])
    else if |script| - location < HEADER_BYTES then None
    else
      var start := location + HEADER_BYTES;
      var next := start + Uint32At(script, location + ADDRESS_BYTES);
      if next > |script| then None
      else
        var rest :- Parse(script, next);
        Some([Action(AddressAt(script, location), script[start..next])] + rest)
  }

  /** The calls in order, each on the world the one before left; None as soon as one is blacklisted
      or fails. */
  function Perform<W>(
    actions: seq<Action>, blacklist: seq<Address>, w: W, invoke: (W, Action) -> Option<W>)
    : Option<W>
  {
    if actions == [] then Some(w)
    else if actions[0].target in blacklist then None
    else
      var w' :- invoke(w, actions[0]);
      Perform(actions[1..], blacklist, w', invoke)
  }

  function Executed<W>(
    script: seq<Byte>, location: nat, blacklist: seq<Address>, w: W, invoke: (W, Action) -> Option<W>): Option<W>
  {
    var actions :- Parse(script, location);
    Perform(actions, blacklist, w, invoke)
  }

  /** The interpreter loop; None is a revert. The calls it has made when it finds the framing broken
      or a call fails are rolled back with the rest. */
  method ExecScript<W>(script: seq<Byte>, blacklist: seq<Address>, world: W, invoke: (W, Action) -> Option<W>)
    returns (r: Option<W>)
    ensures r == Executed(script, 4, blacklist, world, invoke)
  {
    var location := SCRIPT_START_LOCATION;
    var w := world;
    while location < |script|
      invariant Executed(script, location, blacklist, w, invoke) ==
                Executed(script, SCRIPT_START_LOCATION, blacklist, world, invoke)
      decreases |script| - location
    {
      if |script| - location < HEADER_BYTES {
        return None;
      }
      var contractAddress := AddressAt(script, location);
      var allowed := true;
      for i := 0 to |blacklist|
        invariant allowed <==> contractAddress !in blacklist[..i]
      {
        if contractAddress == blacklist[i] {
          allowed := false;
        }
      }
      assert blacklist[..|blacklist|] == blacklist;
      if !allowed {
        return None;
      }
      var calldataLength := Uint32At(script, location + ADDRESS_BYTES);
      var startOffset := location + HEADER_BYTES;
      var here := location;
      location := startOffset + calldataLength;
      if location > |script| {
        return None;
      }
      var action := Action(contractAddress, script[startOffset..location]);
      var after := invoke(w, action);
      StepsOnce(script, here, location, blacklist, w, invoke);
      if after.None? {
        return None;
      }
      w := after.value;
    }
    r := Some(w);
  }

  lemma {:induction false} StepsOnce<W>(
    script: seq<Byte>, location: nat, next: nat, blacklist: seq<Address>, w: W, invoke: (W, Action) -> Option<W>)
    requires location < |script| && |script| - location >= HEADER_BYTES
    requires next == location + HEADER_BYTES + Uint32At(script, location + ADDRESS_BYTES) <= |script|
    requires AddressAt(script, location) !in blacklist
    ensures var after := invoke(w, Action(AddressAt(script, location), script[location + HEADER_BYTES..next]));
            Executed(script, location, blacklist, w, invoke) ==
            if after.None? then None else Executed(script, next, blacklist, after.value, invoke)
  {
    var a := Action(AddressAt(script, location), script[location + HEADER_BYTES..next]);
    var rest := Parse(script, next);
    if rest.Some? {
      assert ([a] + rest.value)[1..] == rest.value;
    }
  }

  /** A world that remembers the calls made on it. */
  function Record(calls: seq<Action>, a: Action): Option<seq<Action>> {
    Some(calls + [a])
  }

  predicate NoneListed(actions: seq<Action>, blacklist: seq<Address>) {
    forall a :: a in actions ==> a.target !in blacklist
  }

  lemma {:induction false} PerformsAll(actions: seq<Action>, blacklist: seq<Address>, calls: seq<Action>)
    ensures Perform(actions, blacklist, calls, Record) ==
            if NoneListed(actions, blacklist) then Some(calls + actions) else None
  {
    if actions == [] {
      assert calls + actions == calls;
    } else {
      var a, rest := actions[0], actions[1..];
      assert actions == [a] + rest && calls + actions == calls + [a] + rest;
      assert NoneListed(actions, blacklist) <==> a.target !in blacklist && NoneListed(rest, blacklist);
      PerformsAll(rest, blacklist, calls + [a]);
    }
  }

  lemma {:induction false} PerformsNoneListed<W>(
    actions: seq<Action>, blacklist: seq<Address>, w: W, invoke: (W, Action) -> Option<W>)
    requires Perform(actions, blacklist, w, invoke).Some?
    ensures NoneListed(actions, blacklist)
  {
    if actions != [] {
      assert actions == [actions[0]] + actions[1..];
      PerformsNoneListed(actions[1..], blacklist, invoke(w, actions[0]).value, invoke);
    }
  }

  /** A script that goes through calls no blacklisted target, whatever the contracts do; and on a world
      that remembers its calls it makes exactly the framed ones, in order, or none at all. */
  lemma {:induction false} CallsAreTheFramedOnes<W>(
    script: seq<Byte>, blacklist: seq<Address>, w: W, invoke: (W, Action) -> Option<W>)
    ensures var actions := Parse(script, 4);
            && (Executed(script, 4, blacklist, w, invoke).Some? ==>
                  actions.Some? && NoneListed(actions.value, blacklist))
            && Executed(script, 4, blacklist, [], Record) ==
               if actions.Some? && NoneListed(actions.value, blacklist) then actions else None
  {
    hide Perform, Parse;
    var actions := Parse(script, 4);
    if actions.Some? {
      PerformsAll(actions.value, blacklist, []);
      assert [] + actions.value == actions.value;
      if Perform(actions.value, blacklist, w, invoke).Some? {
        PerformsNoneListed(actions.value, blacklist, w, invoke);
      }
    }
  }

  // ---------------------------------------------------------------- the pair

  predicate Short(a: Action) {
    |a.data| < LENGTH_LIMIT
  }

  lemma {:induction false} ReadsHeader(pre: seq<Byte>, a: Action, post: seq<Byte>)
    ensures var s := pre + (EncodeAction(a) + post);
            && |s| >= |pre| + HEADER_BYTES
            && AddressAt(s, |pre|) == a.target
            && Uint32At(s, |pre| + ADDRESS_BYTES) < LENGTH_LIMIT
            && (Uint32At(s, |pre| + ADDRESS_BYTES) == |a.data| <==> Short(a))
  {
    hide Number, BigEndian, Pow256;
    var s := pre + (EncodeAction(a) + post);
    FieldWidths();
    NumberOfBytes(a.target, ADDRESS_BYTES);
    NumberOfBytes(|a.data|, 4);
    assert s[|pre|..|pre| + ADDRESS_BYTES] == BigEndian(a.target, ADDRESS_BYTES);
    assert s[|pre| + ADDRESS_BYTES..|pre| + HEADER_BYTES] == BigEndian(|a.data|, 4);
  }

  lemma {:induction false} ParsesShort(pre: seq<Byte>, a: Action, post: seq<Byte>, s: seq<Byte>)
    requires s == pre + (EncodeAction(a) + post) && Short(a)
    ensures var rest := Parse(s, |pre| + |EncodeAction(a)|);
            Parse(s, |pre|) == if rest.None? then None else Some([a] + rest.value)
  {
    ReadsHeader(pre, a, post);
    var next := |pre| + |EncodeAction(a)|;
    assert next == |pre| + HEADER_BYTES + |a.data|;
    assert s[|pre| + HEADER_BYTES..next] == a.data;
  }

  lemma {:induction false} MisreadsLong(pre: seq<Byte>, a: Action, post: seq<Byte>, s: seq<Byte>)
    requires s == pre + (EncodeAction(a) + post) && !Short(a)
    ensures Parse(s, |pre|).Some? ==> Parse(s, |pre|).value != [] && Parse(s, |pre|).value[0] != a
  {
    ReadsHeader(pre, a, post);
    var start := |pre| + HEADER_BYTES;
    var next := start + Uint32At(s, |pre| + ADDRESS_BYTES);
    if next <= |s| {
      assert |s[start..next]| != |a.data|;
    }
  }

  lemma {:induction false} ParsesFirst(pre: seq<Byte>, a: Action, rest: seq<Action>, s: seq<Byte>)
    requires s == pre + (EncodeAction(a) + Body(rest))
    ensures Parse(s, |pre|) == Some([a] + rest) <==>
            Short(a) && Parse(s, |pre| + |EncodeAction(a)|) == Some(rest)
  {
    if Short(a) {
      ParsesShort(pre, a, Body(rest), s);
      var tail := Parse(s, |pre| + |EncodeAction(a)|);
      if tail.Some? {
        assert ([a] + tail.value)[1..] == tail.value && ([a] + rest)[1..] == rest;
      }
    } else {
      MisreadsLong(pre, a, Body(rest), s);
      assert ([a] + rest)[0] == a;
    }
  }

  ghost predicate AllShort(actions: seq<Action>) {
    forall a :: a in actions ==> Short(a)
  }

  lemma {:induction false} ParsesNothing(s: seq<Byte>)
    ensures Parse(s, |s|) == Some([])
  {
  }

  lemma {:induction false} ParsesBody(pre: seq<Byte>, actions: seq<Action>)
    ensures Parse(pre + Body(actions), |pre|) == Some(actions) <==> AllShort(actions)
    decreases |actions|
  {
    hide Parse, EncodeAction, Short;
    if actions == [] {
      assert pre + Body(actions) == pre;
      ParsesNothing(pre);
    } else {
      var a, rest := actions[0], actions[1..];
      assert actions == [a] + rest;
      assert AllShort(actions) <==> Short(a) && AllShort(rest);
      var pre' := pre + EncodeAction(a);
      assert pre + Body(actions) == pre' + Body(rest);
      ParsesFirst(pre, a, rest, pre + Body(actions));
      ParsesBody(pre', rest);
    }
  }

  /** Interpreting an encoded script performs exactly the given calls in order, for any called
      contracts; and the actions are read back exactly when every calldata is shorter than 2^32. */
  lemma {:induction false} EncodedScriptRoundTrip<W>(
    actions: seq<Action>, blacklist: seq<Address>, w: W, invoke: (W, Action) -> Option<W>)
    ensures Parse(EncodeCallScript(actions), SCRIPT_START_LOCATION) == Some(actions) <==>
            AllShort(actions)
    ensures AllShort(actions) ==>
            Executed(EncodeCallScript(actions), SCRIPT_START_LOCATION, blacklist, w, invoke) ==
            Perform(actions, blacklist, w, invoke)
  {
    ScriptIsIdAndBody(actions);
    ParsesBody(CALLSCRIPT_ID, actions);
  }

  lemma {:induction false} HeaderIsEncoding(s: seq<Byte>, location: nat, next: nat)
    requires location + HEADER_BYTES <= next <= |s|
    requires next == location + HEADER_BYTES + Uint32At(s, location + ADDRESS_BYTES)
    ensures var a := Action(AddressAt(s, location), s[location + HEADER_BYTES..next]);
            Short(a) && EncodeAction(a) == s[location..next]
  {
    FieldWidths();
    BytesOfNumber(s[location..location + ADDRESS_BYTES]);
    BytesOfNumber(s[location + ADDRESS_BYTES..location + HEADER_BYTES]);
    assert s[location..next] ==
           s[location..location + ADDRESS_BYTES]
           + s[location + ADDRESS_BYTES..location + HEADER_BYTES]
           + s[location + HEADER_BYTES..next];
  }

  /** Parsing inverts encoding: whatever is accepted is, byte for byte to the end of the script, the
      encoding of the actions found. */
  lemma {:induction false} ParsedIsWholeScript(s: seq<Byte>, location: nat)
    requires Parse(s, location).Some?
    ensures AllShort(Parse(s, location).value)
    ensures location <= |s| ==> s[location..] == Body(Parse(s, location).value)
    decreases |s| - location
  {
    if location < |s| {
      var next := location + HEADER_BYTES + Uint32At(s, location + ADDRESS_BYTES);
      HeaderIsEncoding(s, location, next);
      ParsedIsWholeScript(s, next);
      var actions := Parse(s, location).value;
      assert actions[1..] == Parse(s, next).value;
      assert s[location..] == s[location..next] + s[next..];
    }
  }

  /** A script with an id is accepted by the framing checks exactly when the rest of it is an encoding,
      and then of one action list only. */
  lemma {:induction false} AcceptedExactlyEncodings(s: seq<Byte>, actions: seq<Action>)
    requires |s| >= SCRIPT_START_LOCATION
    ensures Parse(s, SCRIPT_START_LOCATION) == Some(actions) <==>
            AllShort(actions) && s[SCRIPT_START_LOCATION..] == Body(actions)
  {
    var id := s[..SCRIPT_START_LOCATION];
    if Parse(s, SCRIPT_START_LOCATION) == Some(actions) {
      ParsedIsWholeScript(s, SCRIPT_START_LOCATION);
    } else if s[SCRIPT_START_LOCATION..] == Body(actions) {
      assert s == id + Body(actions);
      ParsesBody(id, actions);
    }
  }
}
