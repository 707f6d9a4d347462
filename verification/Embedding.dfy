/** The pseudo-embedding generator of internal/core/usecase/embedding.go. */
module Embedding {
  import opened Domain
  import opened Integers
  import opened Lcg
  import opened Texts
  import opened Utf8

  // ---- FNV-1a, 64 bits (section 2 of draft-eastlake-fnv) ----

  const OFFSET_BASIS := 14695981039346656037
  const FNV_PRIME := 1099511628211

  function XorBit(x: nat, y: nat): nat {
    if x % 2 == y % 2 then 0 else 1
  }

  /** Bitwise exclusive or of two natural numbers. */
  function Xor(x: nat, y: nat): nat
    decreases x + y
  {
    if x + y == 0 then 0 else XorBit(x, y) + 2 * Xor(x / 2, y / 2)
  }

  lemma {:induction false} XorBound(k: nat, x: nat, y: nat)
    requires x < Pow2(k) && y < Pow2(k)
    ensures Xor(x, y) < Pow2(k)
    decreases k
  {
    if k > 0 {
      XorBound(k - 1, x / 2, y / 2);
    }
  }

  lemma XorCons(x: nat, y: nat)
    ensures Xor(x, y) == XorBit(x, y) + 2 * Xor(x / 2, y / 2)
  {
  }

  lemma BitOfSum(bit: nat, z: nat, x: nat, y: nat)
    requires bit == XorBit(x, y)
    ensures (bit + 2 * z) % 2 == (x + y) % 2 && (bit + 2 * z) / 2 == z
  {
  }

  /** The lowest bit is the parity of the two lowest bits, and the others follow in the same way. */
  lemma XorBits(x: nat, y: nat)
    ensures Xor(x, y) % 2 == (x + y) % 2
    ensures Xor(x, y) / 2 == Xor(x / 2, y / 2)
  {
    XorCons(x, y);
    BitOfSum(XorBit(x, y), Xor(x / 2, y / 2), x, y);
  }

  /** Applying the same byte twice undoes it. */
  lemma {:induction false} XorUndo(x: nat, y: nat)
    ensures Xor(Xor(x, y), y) == x
    decreases x + y
  {
    if x + y > 0 {
      XorUndo(x / 2, y / 2);
      XorBits(x, y);
      XorBits(Xor(x, y), y);
    }
  }

  lemma {:induction false} XorCommutes(x: nat, y: nat)
    ensures Xor(x, y) == Xor(y, x)
    decreases x + y
  {
    if x + y > 0 {
      XorCommutes(x / 2, y / 2);
    }
  }

  function Absorb(h: int, b: Byte): (r: int)
    requires IsWord(h)
    ensures IsWord(r)
  {
    Affine(FNV_PRIME, 0, Xor(h, b))
  }

  function Fnv(h: int, bytes: seq<Byte>): (r: int)
    requires IsWord(h)
    ensures IsWord(r)
    decreases bytes
  {
    if bytes == [] then h else Fnv(Absorb(h, bytes[0]), bytes[1..])
  }

  lemma XorWord(h: int, b: Byte)
    requires IsWord(h)
    ensures IsWord(Xor(h, b))
  {
    Pow2Values();
    XorBound(64, h, b);
  }

  lemma XorCancel(h: nat, b: nat, h': nat, b': nat)
    requires Xor(h, b) == Xor(h', b')
    ensures h == h' <==> b == b'
  {
    XorUndo(h, b);
    XorUndo(h', b');
    XorCommutes(h, b);
    XorCommutes(h', b');
    XorUndo(b, h);
    XorUndo(b', h');
  }

  lemma {:induction false} XorZero(x: nat)
    ensures Xor(x, 0) == x
  {
    if x > 0 {
      XorZero(x / 2);
    }
  }

  lemma XorStep(x: nat, y: nat, w: nat, z: nat)
    requires x % 2 == w % 2 && x / 2 - w / 2 == z && Xor(x / 2, y / 2) == z + Xor(w / 2, y / 2)
    ensures Xor(x, y) == 2 * z + Xor(w, y)
  {
  }

  lemma ShiftHalf(m: nat, w: nat)
    ensures (2 * m + w) % 2 == w % 2 && (2 * m + w) / 2 == m + w / 2
  {
  }

  /** Bits above those of the second operand stay as they are. */
  lemma {:induction false} XorHighBits(k: nat, h: nat, w: nat, y: nat)
    requires w < Pow2(k) && y < Pow2(k)
    ensures Xor(h * Pow2(k) + w, y) == h * Pow2(k) + Xor(w, y)
    decreases k
  {
    if k == 0 {
      XorZero(h);
    } else {
      var m := h * Pow2(k - 1);
      TimesDouble(h, Pow2(k), Pow2(k - 1));
      ShiftHalf(m, w);
      XorHighBits(k - 1, h, w / 2, y / 2);
      XorStep(2 * m + w, y, w, m);
    }
  }

  /**
   What makes it FNV-1a and not FNV-1: the byte goes into the low eight bits first, and then the
   whole is multiplied.
   */
  lemma AbsorbMeaning(h: int, b: Byte)
    requires IsWord(h)
    ensures Same(Absorb(h, b), 1099511628211 * (h / 256 * 256 + Xor(h % 256, b)))
  {
    Pow2Values();
    XorHighBits(8, h / 256, h % 256, b);
    SameAsReduced(FNV_PRIME * Xor(h, b));
  }

  lemma PrimeInjective(x: int, y: int)
    requires IsWord(x) && IsWord(y)
    requires Affine(FNV_PRIME, 0, x) == Affine(FNV_PRIME, 0, y)
    ensures x == y
  {
    OddMultiplier(FNV_PRIME, 0, x, y);
  }

  /** Absorbing a byte is injective in the hash and in the byte. */
  lemma AbsorbInjective(h: int, b: Byte, h': int, b': Byte)
    requires IsWord(h) && IsWord(h')
    requires Absorb(h, b) == Absorb(h', b')
    ensures h == h' <==> b == b'
  {
    XorWord(h, b);
    XorWord(h', b');
    PrimeInjective(Xor(h, b), Xor(h', b'));
    XorCancel(h, b, h', b');
  }

  lemma {:induction false} FnvKeepsApart(h: int, h': int, bytes: seq<Byte>)
    requires IsWord(h) && IsWord(h') && h != h'
    ensures Fnv(h, bytes) != Fnv(h', bytes)
    decreases bytes
  {
    if bytes != [] {
      if Absorb(h, bytes[0]) == Absorb(h', bytes[0]) {
        AbsorbInjective(h, bytes[0], h', bytes[0]);
      } else {
        FnvKeepsApart(Absorb(h, bytes[0]), Absorb(h', bytes[0]), bytes[1..]);
      }
    }
  }

  ghost predicate OneByteApart(a: seq<Byte>, b: seq<Byte>) {
    && |a| == |b|
    && exists k :: 0 <= k < |a| && a[k] != b[k] && forall i :: 0 <= i < |a| && i != k ==> a[i] == b[i]
  }

  lemma {:induction false} FnvOneByteApart(h: int, a: seq<Byte>, b: seq<Byte>)
    requires IsWord(h) && OneByteApart(a, b)
    ensures Fnv(h, a) != Fnv(h, b)
    decreases a
  {
    var k :| 0 <= k < |a| && a[k] != b[k] && forall i :: 0 <= i < |a| && i != k ==> a[i] == b[i];
    if k == 0 {
      assert a[1..] == b[1..];
      if Absorb(h, a[0]) == Absorb(h, b[0]) {
        AbsorbInjective(h, a[0], h, b[0]);
      } else {
        FnvKeepsApart(Absorb(h, a[0]), Absorb(h, b[0]), a[1..]);
      }
    } else {
      var x, y := a[1..], b[1..];
      assert x[k - 1] != y[k - 1];
      assert forall i :: 0 <= i < |x| && i != k - 1 ==> x[i] == y[i];
      assert OneByteApart(x, y);
      FnvOneByteApart(Absorb(h, a[0]), x, y);
    }
  }

  // ---- The vector ----

  function Seed(text: string): int {
    Fnv(OFFSET_BASIS, Encode(text))
  }

  /** Go's `int64(seed) % 1000`; the vector entry is this divided by 1000. */
  function Numerator(seed: int): (k: int)
    ensures -999 <= k <= 999
  {
    TruncRem(Int64(seed), 1000)
  }

  /** An entry's numerator is the one number of that size that has the state's sign and its residue. */
  lemma NumeratorMeaning(seed: int, k: int)
    requires IsWord(seed)
    ensures var s := if seed < 0x8000_0000_0000_0000 then seed else seed - 0x1_0000_0000_0000_0000;
      k == Numerator(seed) <==>
      -999 <= k <= 999 && (s - k) % 1000 == 0 && (k > 0 ==> s > 0) && (k < 0 ==> s < 0)
  {
    Int64OfWord(seed);
    TruncRemMeaning(Int64(seed), 1000);
    OneRemainder(Int64(seed), Numerator(seed), k);
  }

  lemma OneRemainder(s: int, r: int, k: int)
    requires -999 <= r <= 999 && (s - r) % 1000 == 0 && (r > 0 ==> s > 0) && (r < 0 ==> s < 0)
    ensures k == r <==> -999 <= k <= 999 && (s - k) % 1000 == 0 && (k > 0 ==> s > 0) && (k < 0 ==> s < 0)
  {
  }

  function Vector(text: string, dims: nat): (v: seq<int>)
    ensures |v| == dims
  {
    seq(dims, i requires 0 <= i => Numerator(Iterate(Seed(text), i + 1)))
  }

  method DeterministicVector(text: string, dims: nat) returns (vec: array<int>)
    ensures fresh(vec)
    ensures vec[..] == Vector(text, dims)
  {
    var bytes := Encode(text);
    var seed := OFFSET_BASIS;
    for i := 0 to |bytes|
      invariant IsWord(seed)
      invariant Fnv(seed, bytes[i..]) == Seed(text)
    {
      assert bytes[i..][1..] == bytes[i + 1..];
      seed := Absorb(seed, bytes[i]);
    }
    vec := new int[dims];
    for i := 0 to dims
      invariant seed == Iterate(Seed(text), i)
      invariant vec[..i] == Vector(text, dims)[..i]
    {
      seed := Next(seed);
      vec[i] := Numerator(seed);
      assert vec[..i + 1] == vec[..i] + [vec[i]];
    }
    assert vec[..] == vec[..dims];
  }

  /** Each entry of a vector, from the generator's state read as an int64. */
  lemma VectorEntries(text: string, dims: nat, i: nat, k: int)
    requires i < dims
    ensures var state := Iterate(Seed(text), i + 1);
      var s := if state < 0x8000_0000_0000_0000 then state else state - 0x1_0000_0000_0000_0000;
      Vector(text, dims)[i] == k <==>
      -999 <= k <= 999 && (s - k) % 1000 == 0 && (k > 0 ==> s > 0) && (k < 0 ==> s < 0)
  {
    NumeratorMeaning(Iterate(Seed(text), i + 1), k);
  }

  lemma XorByte(h: nat, high: nat, low: nat, b: Byte)
    requires h == high * 256 + low && low < 256
    ensures Xor(h, b) == high * 256 + Xor(low, b)
  {
    Pow2Values();
    XorHighBits(8, high, low, b);
  }

  lemma FnvOfByte(h: int, b: Byte)
    requires IsWord(h)
    ensures Fnv(h, [b]) == Absorb(h, b)
  {
    assert [b][1..] == [];
  }

  lemma EncodeA()
    ensures Encode("a") == [0x61]
  {
    assert "a"[1..] == "";
  }

  lemma HighBitsOfA(x: nat, y: nat)
    requires x == 4 && y == 12
    ensures Xor(x, y) == 8
  {
    XorZero(1);
    XorCommutes(0, 1);
    XorCons(1, 3);
    XorCons(2, 6);
    XorCons(x, y);
  }

  lemma LowByteOfA(x: nat, y: nat)
    requires x == 0x25 && y == 0x61
    ensures Xor(x, y) == 0x44
  {
    HighBitsOfA(4, 12);
    XorCons(9, 24);
    XorCons(18, 48);
    XorCons(x, y);
  }

  lemma RemainderIs(x: int, q: int, r: int)
    requires x == q * TWO64 + r && IsWord(r)
    ensures x % TWO64 == r
  {
  }

  lemma AbsorbA(h: int, b: Byte)
    requires h == OFFSET_BASIS && b == 0x61
    ensures Absorb(h, b) == 0xaf63dc4c8601ec8c
  {
    var high, low := 57406175934947875, 0x25;
    XorByte(h, high, low, b);
    LowByteOfA(low, b);
    RemainderIs(FNV_PRIME * Xor(h, b), 875948729822, 0xaf63dc4c8601ec8c);
  }

  lemma EntryOfA(h: int)
    requires h == 0xaf63dc4c8601ec8c
    ensures Numerator(Next(h)) == -157
  {
    RemainderIs(MULTIPLIER * h + INCREMENT, 4360181105425763008, 13783197810026580459);
    NumeratorMeaning(13783197810026580459, -157);
  }

  lemma FirstEntry(text: string, dims: nat, seed: int)
    requires dims > 0 && Seed(text) == seed
    ensures Vector(text, dims)[0] == Numerator(Next(seed))
  {
    assert Iterate(seed, 1) == Next(Iterate(seed, 0));
  }

  /** A known answer: the hash of "a" as the FNV draft lists it, and the entry it leads to. */
  lemma VectorOfA(dims: nat)
    requires dims > 0
    ensures Seed("a") == 0xaf63dc4c8601ec8c
    ensures Vector("a", dims)[0] == -157
  {
    var h, b: Byte := OFFSET_BASIS, 0x61;
    EncodeA();
    FnvOfByte(h, b);
    AbsorbA(h, b);
    FirstEntry("a", dims, Absorb(h, b));
    EntryOfA(Absorb(h, b));
  }

  /** Texts of equal byte length that differ in one byte never share a generator state. */
  lemma NearTextsDiverge(a: string, b: string, n: nat)
    requires OneByteApart(Encode(a), Encode(b))
    ensures Iterate(Seed(a), n) != Iterate(Seed(b), n)
  {
    FnvOneByteApart(OFFSET_BASIS, Encode(a), Encode(b));
    if Iterate(Seed(a), n) == Iterate(Seed(b), n) {
      IterateInjective(Seed(a), Seed(b), n);
    }
  }

  /** All the states behind one vector are different, for any number of dimensions up to 2^64. */
  lemma SeedsOfOneVector(text: string, i: nat, j: nat)
    requires i < j < TWO64
    ensures Iterate(Seed(text), i + 1) != Iterate(Seed(text), j + 1)
  {
    StatesDistinct(Seed(text), i + 1, j + 1);
  }

  lemma Div2Eight(x: int)
    ensures Div2(3, x) <==> x % 8 == 0
  {
    Div2IsMod(3, x);
    Pow2Values();
  }

  lemma NumeratorModEight(seed: int)
    ensures (Numerator(seed) - seed) % 8 == 0
  {
    RemainderModEight(Int64(seed));
    Int64Meaning(seed);
    WordModEight(Int64(seed), seed);
    ModEightChain(Numerator(seed), Int64(seed), seed);
  }

  lemma ModEightChain(x: int, y: int, z: int)
    requires (x - y) % 8 == 0 && (y - z) % 8 == 0
    ensures (x - z) % 8 == 0
  {
  }

  lemma RemainderModEight(s: int)
    ensures (TruncRem(s, 1000) - s) % 8 == 0
  {
    if s >= 0 {
      ThousandModEight(s, s / 1000, TruncRem(s, 1000));
    } else {
      ThousandModEight(s, -((-s) / 1000), TruncRem(s, 1000));
    }
  }

  lemma EightTimes(x: int, k: int)
    requires x == 8 * k
    ensures x % 8 == 0
  {
  }

  lemma ThousandModEight(s: int, q: int, r: int)
    requires s == 1000 * q + r
    ensures (r - s) % 8 == 0
  {
    EightTimes(r - s, -125 * q);
  }

  lemma WordModEight(s: int, seed: int)
    requires Same(s, seed)
    ensures (s - seed) % 8 == 0
  {
    assert s - seed == TWO64 * ((s - seed) / TWO64);
  }

  lemma ModEightAgree(u: int, x: int, v: int, y: int)
    requires (u - x) % 8 == 0 && (v - y) % 8 == 0
    ensures (v - u) % 8 == 0 <==> (y - x) % 8 == 0
  {
  }

  /**
   What the generator's full period means for its output: 1000 is a multiple of 8, so an entry
   keeps the low three bits of its state, and those run through all eight values in turn.
   Entries i and j agree modulo 8 exactly when 8 divides their distance.
   */
  lemma EntriesModEight(text: string, dims: nat, i: nat, j: nat)
    requires i <= j < dims
    ensures (Vector(text, dims)[j] - Vector(text, dims)[i]) % 8 == 0 <==> (j - i) % 8 == 0
  {
    var x, y := Iterate(Seed(text), i + 1), Iterate(Seed(text), j + 1);
    IterateAdd(Seed(text), i + 1, j - i);
    LowBitsPeriod(x, j - i, 3);
    Div2Eight(y - x);
    Div2Eight(j - i);
    NumeratorModEight(x);
    NumeratorModEight(y);
    ModEightAgree(Numerator(x), x, Numerator(y), y);
  }

  /** So any eight neighbouring entries of any vector (a whole default vector) are pairwise different. */
  lemma EightNeighboursDiffer(text: string, dims: nat, i: nat, j: nat)
    requires i < j < dims && j < i + 8
    ensures Vector(text, dims)[i] != Vector(text, dims)[j]
  {
    EntriesModEight(text, dims, i, j);
  }

  // ---- The batch ----

  datatype EmbeddingRequest = EmbeddingRequest(model: string, input: seq<string>)

  datatype Item = Item(index: int, vector: seq<int>, inputText: string)

  datatype EmbeddingResponse = EmbeddingResponse(model: string, embeddings: seq<Item>, usage: TokenUsage)

  const DEFAULT_DIMS := 8

  function ItemFor(input: seq<string>, i: nat, dims: nat): Item
    requires i < |input|
  {
    Item(i, Vector(input[i], dims), input[i])
  }

  function Items(input: seq<string>, dims: nat): (items: seq<Item>)
    ensures |items| == |input|
    ensures forall i :: 0 <= i < |input| ==> items[i] == ItemFor(input, i, dims)
  {
    seq(|input|, i requires 0 <= i < |input| => ItemFor(input, i, dims))
  }

  function Dimensions(dims: int): nat {
    if dims <= 0 then DEFAULT_DIMS else dims
  }

  function BatchTokens(input: seq<string>): nat {
    if input == [] then 0 else Len(input[0]) / 4 + BatchTokens(input[1..])
  }

  lemma {:induction false} BatchTokensAdd(xs: seq<string>, ys: seq<string>)
    ensures BatchTokens(xs + ys) == BatchTokens(xs) + BatchTokens(ys)
  {
    if xs == [] {
      assert xs + ys == ys;
    } else {
      assert (xs + ys)[1..] == xs[1..] + ys;
      BatchTokensAdd(xs[1..], ys);
    }
  }

  /** What `Embed` answers, with `scenario` the outcome of the scenario lookup. */
  function EmbedOutcome(req: EmbeddingRequest, scenario: Result<Scenario, UseCaseError>, dims: int)
    : Result<EmbeddingResponse, UseCaseError>
  {
    if req.model == "" || req.input == [] then Err(InvalidRequest)
    else match scenario
      case Err(e) => Err(e)
      case Ok(sc) =>
        if sc.error.Some? then Err(Injected(sc.error.value))
        else
          var tokens := BatchTokens(req.input);
          Ok(EmbeddingResponse(req.model, Items(req.input, Dimensions(dims)), TokenUsage(tokens, 0, tokens)))
  }

  method Embed(req: EmbeddingRequest, scenarios: ScenarioKey -> Result<Scenario, UseCaseError>, dims: int)
    returns (r: Result<EmbeddingResponse, UseCaseError>)
    ensures r == EmbedOutcome(req, scenarios(ScenarioKey(req.model, "embedding")), dims)
  {
    if req.model == "" || |req.input| == 0 {
      return Err(InvalidRequest);
    }
    var scenario := scenarios(ScenarioKey(req.model, "embedding"));
    if scenario.Err? {
      return Err(scenario.error);
    }
    if scenario.value.error.Some? {
      return Err(Injected(scenario.value.error.value));
    }
    var d := dims;
    if d <= 0 {
      d := DEFAULT_DIMS;
    }
    var embeddings: seq<Item> := [];
    var promptTokens := 0;
    for i := 0 to |req.input|
      invariant |embeddings| == i
      invariant forall k :: 0 <= k < i ==> embeddings[k] == ItemFor(req.input, k, d)
      invariant promptTokens == BatchTokens(req.input[..i])
    {
      var vec := DeterministicVector(req.input[i], d);
      embeddings := embeddings + [Item(i, vec[..], req.input[i])];
      BatchTokensAdd(req.input[..i], [req.input[i]]);
      assert req.input[..i + 1] == req.input[..i] + [req.input[i]];
      assert [req.input[i]][1..] == [];
      promptTokens := promptTokens + Len(req.input[i]) / 4;
    }
    assert req.input[..|req.input|] == req.input;
    r := Ok(EmbeddingResponse(req.model, embeddings, TokenUsage(promptTokens, 0, promptTokens)));
    assert embeddings == Items(req.input, Dimensions(dims));
  }

  lemma {:induction false} BatchTokensBounds(input: seq<string>)
    ensures 4 * BatchTokens(input) <= Len(Concat(input)) <= 4 * BatchTokens(input) + 3 * |input|
  {
    if input != [] {
      BatchTokensBounds(input[1..]);
      EncodeConcat(input[0], Concat(input[1..]));
    }
  }

  /**
   What an answer says: one item for each text, in order, with as many entries as asked for or
   eight, and a count that is a quarter of the bytes less rounding; and which error comes first.
   */
  lemma EmbedAnswers(req: EmbeddingRequest, scenario: Result<Scenario, UseCaseError>, dims: int)
    ensures var r := EmbedOutcome(req, scenario, dims);
      var invalid := req.model == "" || req.input == [];
      && (invalid ==> r == Err(InvalidRequest))
      && (!invalid && scenario.Err? ==> r == Err(scenario.error))
      && (!invalid && scenario.Ok? && scenario.value.error.Some? ==> r == Err(Injected(scenario.value.error.value)))
      && (!invalid && scenario.Ok? && scenario.value.error.None? ==>
            && r.Ok? && r.value.model == req.model
            && |r.value.embeddings| == |req.input|
            && (forall i :: 0 <= i < |req.input| ==>
                  var item := r.value.embeddings[i];
                  && item.index == i && item.inputText == req.input[i]
                  && |item.vector| == (if dims <= 0 then 8 else dims)
                  && item.vector == Vector(req.input[i], |item.vector|))
            && r.value.usage.completionTokens == 0
            && r.value.usage.totalTokens == r.value.usage.promptTokens
            && 4 * r.value.usage.promptTokens <= Len(Concat(req.input))
            && Len(Concat(req.input)) <= 4 * r.value.usage.promptTokens + 3 * |req.input|)
  {
    BatchTokensBounds(req.input);
  }

  function Shift(items: seq<Item>, offset: nat): (r: seq<Item>)
    ensures |r| == |items|
    ensures forall i :: 0 <= i < |items| ==> r[i] == items[i].(index := items[i].index + offset)
  {
    seq(|items|, i requires 0 <= i < |items| => items[i].(index := items[i].index + offset))
  }

  lemma ItemsAdd(xs: seq<string>, ys: seq<string>, dims: nat)
    ensures Items(xs + ys, dims) == Items(xs, dims) + Shift(Items(ys, dims), |xs|)
  {
    var both, joined := Items(xs + ys, dims), Items(xs, dims) + Shift(Items(ys, dims), |xs|);
    forall i | 0 <= i < |xs + ys|
      ensures both[i] == joined[i]
    {
      assert both[i] == ItemFor(xs + ys, i, dims);
      if i < |xs| {
        assert joined[i] == ItemFor(xs, i, dims);
      } else {
        assert Items(ys, dims)[i - |xs|] == ItemFor(ys, i - |xs|, dims);
      }
    }
  }

  /**
   Embedding a joined batch is embedding its parts: the same vectors in order, the second part's
   indices moved up, the token counts added; and a joined batch fails exactly as its parts do.
   */
  lemma EmbedBatches(model: string, xs: seq<string>, ys: seq<string>,
                     scenario: Result<Scenario, UseCaseError>, dims: int)
    requires xs != [] && ys != []
    ensures
      var a := EmbedOutcome(EmbeddingRequest(model, xs), scenario, dims);
      var b := EmbedOutcome(EmbeddingRequest(model, ys), scenario, dims);
      var both := EmbedOutcome(EmbeddingRequest(model, xs + ys), scenario, dims);
      if both.Err? then a == both && b == both
      else
        && a.Ok? && b.Ok?
        && both.value.model == model
        && both.value.embeddings == a.value.embeddings + Shift(b.value.embeddings, |xs|)
        && both.value.usage.promptTokens == a.value.usage.promptTokens + b.value.usage.promptTokens
        && both.value.usage.totalTokens == both.value.usage.promptTokens
  {
    BatchTokensAdd(xs, ys);
    ItemsAdd(xs, ys, Dimensions(dims));
  }
}
