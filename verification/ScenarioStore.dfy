/**
 The scenario store with its two writers: the YAML loader at startup
 (internal/adapters/outbound/scenario) and the admin API (internal/adapters/admin/http).
 */
module ScenarioStore {
  import opened Domain
  import opened Separators

  const DEFAULT_OPERATION := "chat"

  function Operation(op: string): (r: string)
    ensures r != ""
  {
    if op == "" then DEFAULT_OPERATION else op
  }

  /** The store's key convention. */
  function Key(model: string, operation: string): string {
    model + "|" + Operation(operation)
  }

  function KeyOf(k: ScenarioKey): string {
    Key(k.model, k.operation)
  }

  function DefaultScenario(key: string): Scenario {
    Scenario(key, "", 0, 0, None, NO_USAGE)
  }

  /** What the store answers for a key: the stored scenario, or a benign default. */
  function Lookup(scenarios: map<string, Scenario>, k: ScenarioKey): Scenario {
    if KeyOf(k) in scenarios then scenarios[KeyOf(k)] else DefaultScenario(KeyOf(k))
  }

  /** Every scenario is stored under its own key. */
  ghost predicate Keyed(scenarios: map<string, Scenario>) {
    forall k :: k in scenarios ==> scenarios[k].key == k
  }

  /** An entry of the scenario file, or the body of an admin PUT. */
  datatype Entry = Entry(
    model: string,
    operation: string,
    responseText: string,
    latencyMs: int,
    tokensPerSecond: int,
    error: Option<ErrorInjection>)

  function ToScenario(e: Entry): Scenario {
    Scenario(Key(e.model, e.operation), e.responseText, e.latencyMs, e.tokensPerSecond, e.error, NO_USAGE)
  }

  datatype Status = NoContent | BadRequest

  class Store {
    var scenarios: map<string, Scenario>

    ghost predicate Valid()
      reads this
    {
      Keyed(scenarios)
    }

    constructor ()
      ensures Valid() && scenarios == map[]
    {
      scenarios := map[];
    }

    method Resolve(k: ScenarioKey) returns (r: Result<Scenario, UseCaseError>)
      ensures r == Ok(Lookup(scenarios, k))
    {
      var op := k.operation;
      if op == "" {
        op := DEFAULT_OPERATION;
      }
      var key := k.model + "|" + op;
      if key in scenarios {
        return Ok(scenarios[key]);
      }
      r := Ok(Scenario(key, "", 0, 0, None, TokenUsage(0, 0, 0)));
    }

    method Put(sc: Scenario)
      requires Valid()
      modifies this
      ensures Valid() && scenarios == old(scenarios)[sc.key := sc]
    {
      scenarios := scenarios[sc.key := sc];
    }

    /** In no particular order, each stored scenario once. */
    method List() returns (out: seq<Scenario>)
      requires Valid()
      ensures |out| == |scenarios|
      ensures forall sc :: sc in out <==> sc.key in scenarios && scenarios[sc.key] == sc
      ensures forall i, j :: 0 <= i < j < |out| ==> out[i].key != out[j].key
    {
      var left := scenarios.Keys;
      out := [];
      while left != {}
        invariant left <= scenarios.Keys
        invariant |out| + |left| == |scenarios|
        invariant forall sc :: sc in out <==> sc.key in scenarios.Keys - left && scenarios[sc.key] == sc
        invariant forall i, j :: 0 <= i < j < |out| ==> out[i].key != out[j].key
        decreases left
      {
        var k :| k in left;
        assert scenarios[k].key == k;
        forall i | 0 <= i < |out|
          ensures out[i].key != k
        {
          assert out[i] in out;
        }
        out := out + [scenarios[k]];
        left := left - {k};
      }
    }

    /** The loader's loop: entries go in as they stand, in file order. */
    method Load(entries: seq<Entry>)
      requires Valid()
      modifies this
      ensures Valid() && scenarios == ApplyAll(old(scenarios), FileWrites(entries))
    {
      for i := 0 to |entries|
        invariant Valid()
        invariant scenarios == ApplyAll(old(scenarios), FileWrites(entries[..i]))
      {
        var op := entries[i].operation;
        if op == "" {
          op := DEFAULT_OPERATION;
        }
        var sc := Scenario(Key(entries[i].model, op), entries[i].responseText, entries[i].latencyMs,
                           entries[i].tokensPerSecond, None, TokenUsage(0, 0, 0));
        if entries[i].error.Some? {
          sc := sc.(error := Some(entries[i].error.value));
        }
        FileWritesNext(entries, i);
        ApplySnoc(old(scenarios), FileWrites(entries[..i]), FromFile(entries[i]));
        Put(sc);
      }
      assert entries[..|entries|] == entries;
    }

    /** The admin PUT: a scenario without a model is refused. */
    method AdminPut(dto: Entry) returns (status: Status)
      requires Valid()
      modifies this
      ensures Valid() && scenarios == Apply(old(scenarios), FromAdmin(dto))
      ensures status == BadRequest <==> dto.model == ""
    {
      if dto.model == "" {
        return BadRequest;
      }
      var op := dto.operation;
      if op == "" {
        op := DEFAULT_OPERATION;
      }
      var sc := Scenario(dto.model + "|" + op, dto.responseText, dto.latencyMs, dto.tokensPerSecond, None,
                         TokenUsage(0, 0, 0));
      if dto.error.Some? {
        sc := sc.(error := Some(dto.error.value));
      }
      Put(sc);
      status := NoContent;
    }
  }

  // ---- Histories of writes ----

  datatype Write = FromFile(entry: Entry) | FromAdmin(entry: Entry)

  predicate Accepted(w: Write) {
    w.FromAdmin? ==> w.entry.model != ""
  }

  function Apply(m: map<string, Scenario>, w: Write): map<string, Scenario> {
    if Accepted(w) then m[ToScenario(w.entry).key := ToScenario(w.entry)] else m
  }

  function ApplyAll(m: map<string, Scenario>, ws: seq<Write>): map<string, Scenario>
    decreases ws
  {
    if ws == [] then m else ApplyAll(Apply(m, ws[0]), ws[1..])
  }

  function FileWrites(entries: seq<Entry>): (ws: seq<Write>)
    ensures |ws| == |entries|
    ensures forall i :: 0 <= i < |entries| ==> ws[i] == FromFile(entries[i])
  {
    seq(|entries|, i requires 0 <= i < |entries| => FromFile(entries[i]))
  }

  function AdminWrites(entries: seq<Entry>): (ws: seq<Write>)
    ensures |ws| == |entries|
    ensures forall i :: 0 <= i < |entries| ==> ws[i] == FromAdmin(entries[i])
  {
    seq(|entries|, i requires 0 <= i < |entries| => FromAdmin(entries[i]))
  }

  lemma FileWritesNext(entries: seq<Entry>, i: nat)
    requires i < |entries|
    ensures FileWrites(entries[..i + 1]) == FileWrites(entries[..i]) + [FromFile(entries[i])]
  {
  }

  lemma {:induction false} ApplySnoc(m: map<string, Scenario>, ws: seq<Write>, w: Write)
    ensures ApplyAll(m, ws + [w]) == Apply(ApplyAll(m, ws), w)
    decreases ws
  {
    if ws == [] {
      assert [w][1..] == [];
    } else {
      assert (ws + [w])[1..] == ws[1..] + [w];
      ApplySnoc(Apply(m, ws[0]), ws[1..], w);
    }
  }

  /** The last accepted write to a key. */
  function LastWrite(ws: seq<Write>, key: string): Option<Scenario> {
    if ws == [] then None
    else
      var w := ws[|ws| - 1];
      if Accepted(w) && ToScenario(w.entry).key == key then Some(ToScenario(w.entry))
      else LastWrite(ws[..|ws| - 1], key)
  }

  /**
   After any interleaving of loader and admin writes, a lookup gives the last accepted write to
   its key, or the default when there was none; and every scenario sits under its own key.
   */
  lemma {:induction false} ResolveIsLastWrite(ws: seq<Write>, k: ScenarioKey)
    ensures Keyed(ApplyAll(map[], ws))
    ensures Lookup(ApplyAll(map[], ws), k) ==
            match LastWrite(ws, KeyOf(k)) case Some(sc) => sc case None => DefaultScenario(KeyOf(k))
    ensures KeyOf(k) in ApplyAll(map[], ws) <==> LastWrite(ws, KeyOf(k)).Some?
  {
    if ws != [] {
      var n := |ws| - 1;
      ResolveIsLastWrite(ws[..n], k);
      ApplySnoc(map[], ws[..n], ws[n]);
      assert ws == ws[..n] + [ws[n]];
    }
  }

  /** The write at position i is the last accepted one for a pair's key. */
  ghost predicate IsLastWrite(ws: seq<Write>, i: nat, k: ScenarioKey) {
    && i < |ws| && (ws[i].FromFile? || ws[i].entry.model != "") && WritesTo(ws[i], k)
    && forall j :: i < j < |ws| ==> !((ws[j].FromFile? || ws[j].entry.model != "") && WritesTo(ws[j], k))
  }

  ghost predicate WritesTo(w: Write, k: ScenarioKey) {
    Key(w.entry.model, w.entry.operation) == KeyOf(k)
  }

  /** For operations free of bars that is a write for the same model and operation, `chat` being the default one. */
  lemma WritesToSamePair(w: Write, k: ScenarioKey)
    requires '|' !in w.entry.operation && '|' !in k.operation
    ensures WritesTo(w, k) <==>
            w.entry.model == k.model &&
            (w.entry.operation == k.operation ||
             (w.entry.operation in {"", "chat"} && k.operation in {"", "chat"}))
  {
    if WritesTo(w, k) {
      KeyInjective(w.entry.model, w.entry.operation, k.model, k.operation);
    }
  }

  /** A lookup gives what the entry of the last accepted write says, field by field. */
  lemma ResolveIsLastEntry(ws: seq<Write>, i: nat, k: ScenarioKey)
    requires IsLastWrite(ws, i, k)
    ensures var e, sc := ws[i].entry, Lookup(ApplyAll(map[], ws), k);
      && sc.responseText == e.responseText
      && sc.latencyMs == e.latencyMs
      && sc.tokensPerSecond == e.tokensPerSecond
      && sc.error == e.error
      && sc.usage.totalTokens == 0
  {
    ResolveIsLastWrite(ws, k);
    LastWriteAt(ws, i, k);
  }

  lemma {:induction false} LastWriteAt(ws: seq<Write>, i: nat, k: ScenarioKey)
    requires IsLastWrite(ws, i, k)
    ensures LastWrite(ws, KeyOf(k)) == Some(ToScenario(ws[i].entry))
  {
    var n := |ws| - 1;
    if i < n {
      LastWriteAt(ws[..n], i, k);
    }
  }

  /** Without such a write a lookup gives a scenario that injects nothing and delays nothing. */
  lemma {:induction false} ResolveDefault(ws: seq<Write>, k: ScenarioKey)
    requires forall i: nat :: !IsLastWrite(ws, i, k)
    ensures var sc := Lookup(ApplyAll(map[], ws), k);
      && sc.responseText == "" && sc.latencyMs == 0 && sc.tokensPerSecond == 0
      && sc.error == None && sc.usage.totalTokens == 0
  {
    ResolveIsLastWrite(ws, k);
    if LastWrite(ws, KeyOf(k)).Some? {
      var i := LastWriteExists(ws, k);
    }
  }

  lemma {:induction false} LastWriteExists(ws: seq<Write>, k: ScenarioKey) returns (i: nat)
    requires LastWrite(ws, KeyOf(k)).Some?
    ensures IsLastWrite(ws, i, k)
  {
    var n := |ws| - 1;
    if Accepted(ws[n]) && WritesTo(ws[n], k) {
      i := n;
    } else {
      i := LastWriteExists(ws[..n], k);
    }
  }

  // ---- The key encoding ----

  /** With operations free of bars the key gives back the pair, whatever the model contains. */
  lemma KeyInjective(m: string, o: string, m': string, o': string)
    requires '|' !in o && '|' !in o'
    requires Key(m, o) == Key(m', o')
    ensures m == m' && Operation(o) == Operation(o')
  {
    LastSeparatorUnique('|', m, Operation(o), m', Operation(o'));
  }

  /** The first pair's operation holds a bar, and what precedes it sits in the second pair's model. */
  ghost predicate Shadows(m: string, o: string, m': string, o': string) {
    exists x :: Operation(o) == x + "|" + Operation(o') && m' == m + "|" + x
  }

  /** Two pairs share a key exactly when they are the same pair or one shadows the other. */
  lemma KeyCollision(m: string, o: string, m': string, o': string)
    ensures Key(m, o) == Key(m', o') <==>
            (m == m' && Operation(o) == Operation(o')) || Shadows(m, o, m', o') || Shadows(m', o', m, o)
  {
    if Key(m, o) == Key(m', o') {
      if |m| == |m'| {
        SamePrefix(m, Operation(o), m', Operation(o'));
      } else if |m| < |m'| {
        LongerModel(m, o, m', o');
      } else {
        LongerModel(m', o', m, o);
      }
    }
    if Shadows(m, o, m', o') {
      ShadowsKey(m, o, m', o');
    }
    if Shadows(m', o', m, o) {
      ShadowsKey(m', o', m, o);
    }
  }

  lemma SamePrefix(m: string, o: string, m': string, o': string)
    requires m + "|" + o == m' + "|" + o' && |m| == |m'|
    ensures m == m' && o == o'
  {
    var key := m + "|" + o;
    assert m == key[..|m|] && o == key[|m| + 1..];
    assert m' == key[..|m|] && o' == key[|m| + 1..];
  }

  lemma LongerModel(m: string, o: string, m': string, o': string)
    requires Key(m, o) == Key(m', o') && |m| < |m'|
    ensures Shadows(m, o, m', o')
  {
    var key, op, op' := Key(m, o), Operation(o), Operation(o');
    var x := m'[|m| + 1..];
    assert key == m' + "|" + op';
    assert m' == m + "|" + x by {
      assert m == key[..|m|] == m'[..|m|];
      assert key[|m|] == '|' && m'[|m|] == '|';
    }
    assert op == x + "|" + op' by {
      assert op == key[|m| + 1..];
    }
  }

  lemma ShadowsKey(m: string, o: string, m': string, o': string)
    requires Shadows(m, o, m', o')
    ensures Key(m, o) == Key(m', o')
  {
    var x :| Operation(o) == x + "|" + Operation(o') && m' == m + "|" + x;
    assert m + "|" + (x + "|" + Operation(o')) == (m + "|" + x) + "|" + Operation(o');
  }

  /** A bar with something after it. */
  predicate HasInnerBar(s: string) {
    exists i :: 0 <= i < |s| - 1 && s[i] == '|'
  }

  ghost predicate SharesKey(m: string, o: string, m': string, o': string) {
    (m' != m || Operation(o') != Operation(o)) && Key(m', o') == Key(m, o)
  }

  /**
   The key of a pair belongs to another pair as well exactly when the model holds a bar or the
   operation holds one before its last character.
   */
  lemma KeyAmbiguity(m: string, o: string)
    ensures (exists m', o' :: SharesKey(m, o, m', o')) <==> '|' in m || HasInnerBar(Operation(o))
  {
    if m', o' :| SharesKey(m, o, m', o') {
      SharedKeyHasBar(m, o, m', o');
    }
    if '|' in m {
      BarInModel(m, o);
    } else if HasInnerBar(Operation(o)) {
      BarInOperation(m, o);
    }
  }

  lemma SharedKeyHasBar(m: string, o: string, m': string, o': string)
    requires SharesKey(m, o, m', o')
    ensures '|' in m || HasInnerBar(Operation(o))
  {
    KeyCollision(m, o, m', o');
    if Shadows(m, o, m', o') {
      var x :| Operation(o) == x + "|" + Operation(o') && m' == m + "|" + x;
      assert Operation(o)[|x|] == '|';
    }
  }

  lemma BarInModel(m: string, o: string)
    requires '|' in m
    ensures exists m', o' :: SharesKey(m, o, m', o')
  {
    var a, x := LastSeparator('|', m);
    var o' := x + "|" + Operation(o);
    assert Operation(o') == o';
    assert Shadows(a, o', m, o);
    ShadowsKey(a, o', m, o);
    assert SharesKey(m, o, a, o');
  }

  lemma BarInOperation(m: string, o: string)
    requires HasInnerBar(Operation(o))
    ensures exists m', o' :: SharesKey(m, o, m', o')
  {
    var op := Operation(o);
    var i :| 0 <= i < |op| - 1 && op[i] == '|';
    var x, y := op[..i], op[i + 1..];
    assert op == x + "|" + y && Operation(y) == y;
    assert Shadows(m, o, m + "|" + x, y);
    ShadowsKey(m, o, m + "|" + x, y);
    assert SharesKey(m, o, m + "|" + x, y);
  }

  /** So an operation with a bar can shadow another model's scenario. */
  lemma BarInOperationShadows()
    ensures Key("a", "b|chat") == Key("a|b", "chat")
  {
  }

  // ---- Refinement of a map on pairs ----

  function ApplyPair(m: map<(string, string), Scenario>, w: Write): map<(string, string), Scenario> {
    if Accepted(w) then m[(w.entry.model, Operation(w.entry.operation)) := ToScenario(w.entry)] else m
  }

  function ApplyPairs(m: map<(string, string), Scenario>, ws: seq<Write>): map<(string, string), Scenario>
    decreases ws
  {
    if ws == [] then m else ApplyPairs(ApplyPair(m, ws[0]), ws[1..])
  }

  ghost predicate Represents(m: map<string, Scenario>, pairs: map<(string, string), Scenario>) {
    forall model: string, op: string ::
      op != "" && '|' !in op ==>
        ((model, op) in pairs <==> Key(model, op) in m) &&
        ((model, op) in pairs ==> pairs[(model, op)] == m[Key(model, op)])
  }

  lemma ApplyKeepsRepresents(m: map<string, Scenario>, pairs: map<(string, string), Scenario>, w: Write)
    requires Represents(m, pairs) && '|' !in w.entry.operation
    ensures Represents(Apply(m, w), ApplyPair(pairs, w))
  {
    if Accepted(w) {
      var m', pairs' := Apply(m, w), ApplyPair(pairs, w);
      forall model: string, op: string | op != "" && '|' !in op
        ensures (model, op) in pairs' <==> Key(model, op) in m'
        ensures (model, op) in pairs' ==> pairs'[(model, op)] == m'[Key(model, op)]
      {
        if Key(model, op) == ToScenario(w.entry).key {
          KeyInjective(model, op, w.entry.model, w.entry.operation);
        }
      }
    }
  }

  /** With bar-free operations the string-keyed store is a last-write-wins map on pairs. */
  lemma {:induction false} StoreRefinesPairMap(m: map<string, Scenario>, pairs: map<(string, string), Scenario>,
                                               ws: seq<Write>)
    requires Represents(m, pairs)
    requires forall w :: w in ws ==> '|' !in w.entry.operation
    ensures Represents(ApplyAll(m, ws), ApplyPairs(pairs, ws))
    decreases ws
  {
    if ws != [] {
      ApplyKeepsRepresents(m, pairs, ws[0]);
      StoreRefinesPairMap(Apply(m, ws[0]), ApplyPair(pairs, ws[0]), ws[1..]);
    }
  }

  // ---- The two writers compared ----

  function Named(entries: seq<Entry>): seq<Entry> {
    if entries == [] then []
    else (if entries[0].model != "" then [entries[0]] else []) + Named(entries[1..])
  }

  /** PUTting a list is loading the entries of it that name a model, from any store. */
  lemma {:induction false} AdminIsLoadOfNamed(m: map<string, Scenario>, entries: seq<Entry>)
    ensures ApplyAll(m, AdminWrites(entries)) == ApplyAll(m, FileWrites(Named(entries)))
    decreases entries
  {
    if entries != [] {
      var e := entries[0];
      assert AdminWrites(entries)[1..] == AdminWrites(entries[1..]);
      AdminIsLoadOfNamed(Apply(m, FromAdmin(e)), entries[1..]);
      if e.model != "" {
        assert Named(entries)[1..] == Named(entries[1..]);
        assert FileWrites(Named(entries))[1..] == FileWrites(Named(entries[1..]));
      } else {
        assert Named(entries) == Named(entries[1..]);
      }
    }
  }

  lemma {:induction false} AllNamed(entries: seq<Entry>)
    requires forall e :: e in entries ==> e.model != ""
    ensures Named(entries) == entries
  {
    if entries != [] {
      AllNamed(entries[1..]);
    }
  }

  lemma {:induction false} NamedOnly(entries: seq<Entry>)
    ensures forall e :: e in Named(entries) ==> e in entries && e.model != ""
  {
    if entries != [] {
      NamedOnly(entries[1..]);
    }
  }

  lemma {:induction false} NamedSnoc(entries: seq<Entry>, e: Entry)
    ensures Named(entries + [e]) == Named(entries) + if e.model != "" then [e] else []
  {
    if entries == [] {
      assert [e][1..] == [];
    } else {
      assert (entries + [e])[1..] == entries[1..] + [e];
      NamedSnoc(entries[1..], e);
    }
  }

  /** What a store holds under a key. */
  function Held(m: map<string, Scenario>, key: string): Option<Scenario> {
    if key in m then Some(m[key]) else None
  }

  /** The last entry of a list for a key. */
  function LastEntry(entries: seq<Entry>, key: string): Option<Entry> {
    if entries == [] then None
    else
      var e := entries[|entries| - 1];
      if ToScenario(e).key == key then Some(e) else LastEntry(entries[..|entries| - 1], key)
  }

  /** After loading a list a key holds what its last entry says, or what it held before. */
  lemma {:induction false} LoadHolds(m: map<string, Scenario>, entries: seq<Entry>, key: string)
    ensures Held(ApplyAll(m, FileWrites(entries)), key) ==
            match LastEntry(entries, key) case Some(e) => Some(ToScenario(e)) case None => Held(m, key)
  {
    if entries != [] {
      var n := |entries| - 1;
      LoadHolds(m, entries[..n], key);
      FileWritesNext(entries, n);
      ApplySnoc(m, FileWrites(entries[..n]), FromFile(entries[n]));
      assert entries[..n + 1] == entries;
    }
  }

  lemma {:induction false} LastNamed(entries: seq<Entry>, key: string)
    requires LastEntry(entries, key).Some? ==> LastEntry(entries, key).value.model != ""
    ensures LastEntry(Named(entries), key) == LastEntry(entries, key)
  {
    if entries != [] {
      var init, e := entries[..|entries| - 1], entries[|entries| - 1];
      assert entries == init + [e];
      NamedSnoc(init, e);
      if ToScenario(e).key != key {
        LastNamed(init, key);
      }
      if e.model != "" {
        assert (Named(init) + [e])[..|Named(init)|] == Named(init);
      } else {
        assert Named(entries) == Named(init);
      }
    }
  }

  lemma {:induction false} LastEntryIn(entries: seq<Entry>, key: string)
    ensures LastEntry(entries, key).Some? ==>
              LastEntry(entries, key).value in entries && ToScenario(LastEntry(entries, key).value).key == key
    ensures LastEntry(entries, key).None? ==> forall e :: e in entries ==> ToScenario(e).key != key
  {
    if entries != [] {
      var init, e := entries[..|entries| - 1], entries[|entries| - 1];
      assert entries == init + [e];
      LastEntryIn(init, key);
    }
  }

  /** What PUTting a list leaves under a key: its last entry with a model, or what was there. */
  function LeftByPuts(m: map<string, Scenario>, entries: seq<Entry>, key: string): Option<Scenario> {
    match LastEntry(Named(entries), key)
    case Some(e) => Some(ToScenario(e))
    case None => Held(m, key)
  }

  /** An entry without a model that is the last one for its key changes what the PUTs leave there. */
  ghost predicate Unmatched(m: map<string, Scenario>, entries: seq<Entry>, e: Entry) {
    var key := ToScenario(e).key;
    e.model == "" && LastEntry(entries, key) == Some(e) && LeftByPuts(m, entries, key) != Some(ToScenario(e))
  }

  /**
   For any list and any store: loading the list and PUTting it give the same store exactly when
   every entry without a model that has the last word on its key says what is there anyway.
   */
  lemma LoadEqualsPuts(m: map<string, Scenario>, entries: seq<Entry>)
    ensures ApplyAll(m, FileWrites(entries)) == ApplyAll(m, AdminWrites(entries)) <==>
            forall e :: e in entries ==> !Unmatched(m, entries, e)
  {
    var loaded, put := ApplyAll(m, FileWrites(entries)), ApplyAll(m, FileWrites(Named(entries)));
    AdminIsLoadOfNamed(m, entries);
    if forall e :: e in entries ==> !Unmatched(m, entries, e) {
      forall key: string
        ensures Held(loaded, key) == Held(put, key)
      {
        LoadHolds(m, entries, key);
        LoadHolds(m, Named(entries), key);
        LastEntryIn(entries, key);
        if LastEntry(entries, key).None? || LastEntry(entries, key).value.model != "" {
          LastNamed(entries, key);
        } else {
          assert !Unmatched(m, entries, LastEntry(entries, key).value);
        }
      }
      SameHeld(loaded, put);
    } else {
      var e :| e in entries && Unmatched(m, entries, e);
      LoadHolds(m, entries, ToScenario(e).key);
      LoadHolds(m, Named(entries), ToScenario(e).key);
    }
  }

  lemma SameHeld(a: map<string, Scenario>, b: map<string, Scenario>)
    requires forall key: string :: Held(a, key) == Held(b, key)
    ensures a == b
  {
    forall key: string
      ensures key in a <==> key in b
      ensures key in a ==> a[key] == b[key]
    {
      assert Held(a, key) == Held(b, key);
    }
  }

  /** In particular when every entry names a model, whatever its operation and the store. */
  lemma NamedLoadEqualsPuts(m: map<string, Scenario>, entries: seq<Entry>)
    requires forall e :: e in entries ==> e.model != ""
    ensures ApplyAll(m, FileWrites(entries)) == ApplyAll(m, AdminWrites(entries))
  {
    AdminIsLoadOfNamed(m, entries);
    AllNamed(entries);
  }

  /** And from an empty store, with bar-free operations, only then. */
  lemma OnlyNamedLoadEqualsPuts(entries: seq<Entry>)
    requires forall e :: e in entries ==> '|' !in e.operation
    ensures ApplyAll(map[], FileWrites(entries)) == ApplyAll(map[], AdminWrites(entries)) <==>
            forall e :: e in entries ==> e.model != ""
  {
    if forall e :: e in entries ==> e.model != "" {
      NamedLoadEqualsPuts(map[], entries);
    } else {
      var e :| e in entries && e.model == "";
      var key := ToScenario(e).key;
      LastEntryIn(entries, key);
      var last := LastEntry(entries, key).value;
      KeyInjective(e.model, e.operation, last.model, last.operation);
      LastEntryIn(Named(entries), key);
      NamedOnly(entries);
      if LastEntry(Named(entries), key).Some? {
        var e' := LastEntry(Named(entries), key).value;
        KeyInjective(e.model, e.operation, e'.model, e'.operation);
      }
      LoadEqualsPuts(map[], entries);
      assert Unmatched(map[], entries, last);
    }
  }

  /** Neither writer can set a usage, so in a store they fill every usage is estimated. */
  lemma {:induction false} WritersSetNoUsage(ws: seq<Write>, k: ScenarioKey)
    ensures Lookup(ApplyAll(map[], ws), k).usage == NO_USAGE
  {
    ResolveIsLastWrite(ws, k);
    LastWriteUsage(ws, KeyOf(k));
  }

  lemma {:induction false} LastWriteUsage(ws: seq<Write>, key: string)
    ensures LastWrite(ws, key).Some? ==> LastWrite(ws, key).value.usage == NO_USAGE
  {
    if ws != [] {
      LastWriteUsage(ws[..|ws| - 1], key);
    }
  }
}
