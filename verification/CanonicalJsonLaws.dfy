/** What the canonical text promises: it is a normal form of JSON data, and the attestation digest over it
    pins down exactly the six attested fields. */
module CanonicalJsonLaws {
  import opened Strings
  import opened Sorting
  import opened CanonicalJson
  import opened JsonParser

  // ---------------------------------------------------------------- the data of a value

  /** The JSON data of a value when members named in `dropped` do not count. */
  function Denote(v: Value, dropped: set<Units>): Data
    decreases v
  {
    match v
    case Undefined => DNull
    case Null => DNull
    case Bool(b) => DBool(b)
    case NonFinite => DNull
    case Number(t) => DNumber(t)
    case Str(s) => DStr(s)
    case Arr(es) => DArr(DenoteAll(es, dropped))
    case Obj(ms) => DObj(DenoteMembers(ms, dropped))
  }

  function DenoteAll(es: seq<Value>, dropped: set<Units>): (r: seq<Data>)
    ensures |r| == |es|
    decreases es
  {
    if es == [] then [] else [Denote(es[0], dropped)] + DenoteAll(es[1..], dropped)
  }

  function DenoteMember(m: Member, dropped: set<Units>): Data
    decreases m
  {
    Denote(m.value, dropped)
  }

  function DenoteMembers(ms: seq<Member>, dropped: set<Units>): map<Units, Data>
    decreases ms
  {
    if ms == [] then map[]
    else
      var rest := DenoteMembers(ms[1..], dropped);
      if ms[0].value.Undefined? || ms[0].key in dropped then rest - {ms[0].key}
      else rest[ms[0].key := DenoteMember(ms[0], dropped)]
  }

  /** The data `JSON.stringify` writes for the value itself. */
  function JsonData(v: Value): Data { Denote(v, {}) }

  /** The data that survives `canonicalize`. */
  function CanonicalData(v: Value): Data { Denote(v, {PROTO}) }

  lemma {:induction false} DenoteAt(ms: seq<Member>, dropped: set<Units>)
    ensures forall k :: k in DenoteMembers(ms, dropped) <==> !Get(ms, k).Undefined? && k !in dropped
    ensures forall k | k in DenoteMembers(ms, dropped) :: DenoteMembers(ms, dropped)[k] == Denote(Get(ms, k), dropped)
  {
    if ms != [] { DenoteAt(ms[1..], dropped); }
  }

  // ---------------------------------------------------------------- lookup

  lemma {:induction false} GetAt(ms: seq<Member>, key: Units)
    ensures Get(ms, key).Undefined? || exists i | 0 <= i < |ms| :: ms[i].key == key && ms[i].value == Get(ms, key)
    ensures key !in Keys(ms) ==> Get(ms, key).Undefined?
    ensures MembersValid(ms) ==> Valid(Get(ms, key))
  {
    if ms == [] {
    } else {
      GetAt(ms[1..], key);
      assert ms[0].key == Keys(ms)[0] && Keys(ms)[1..] == Keys(ms[1..]);
      assert MembersValid(ms) ==> MemberValid(ms[0]);
    }
  }

  lemma {:induction false} GetUnique(ms: seq<Member>, i: nat)
    requires NoDuplicates(Keys(ms)) && i < |ms|
    ensures Get(ms, ms[i].key) == ms[i].value
  {
    if i > 0 {
      assert Keys(ms)[0] != Keys(ms)[i];
      assert Keys(ms)[1..] == Keys(ms[1..]);
      GetUnique(ms[1..], i - 1);
    }
  }

  lemma {:induction false} GetCanonical(ms: seq<Member>, key: Units)
    ensures Get(CanonicalizeMembers(ms), key) == Canonicalize(Get(ms, key))
  {
    if ms != [] { GetCanonical(ms[1..], key); }
  }

  lemma SelectGet(keys: seq<Units>, ms: seq<Member>, key: Units)
    requires NoDuplicates(keys)
    ensures Keys(Select(keys, ms)) == keys
    ensures Get(Select(keys, ms), key) == if key in keys then Get(ms, key) else Undefined
  {
    assert Keys(Select(keys, ms)) == keys;
    GetAt(Select(keys, ms), key);
    if key in keys {
      var i :| 0 <= i < |keys| && keys[i] == key;
      GetUnique(Select(keys, ms), i);
    }
  }

  // ---------------------------------------------------------------- code-unit order

  lemma {:induction false} UnitsTotal(a: Units, b: Units)
    ensures UnitsLe(a, b) || UnitsLe(b, a)
    ensures UnitsLe(a, b) && UnitsLe(b, a) ==> a == b
  {
    if a != [] && b != [] {
      UnitsTotal(a[1..], b[1..]);
      assert a == [a[0]] + a[1..] && b == [b[0]] + b[1..];
    }
  }

  lemma {:induction false} UnitsTransitive(a: Units, b: Units, c: Units)
    requires UnitsLe(a, b) && UnitsLe(b, c)
    ensures UnitsLe(a, c)
  {
    if a != [] && a[0] == b[0] == c[0] { UnitsTransitive(a[1..], b[1..], c[1..]); }
  }

  lemma ByUnitsTotal()
    ensures TotalOrder(ByUnits())
  {
    forall a, b ensures ByUnits()(a, b) || ByUnits()(b, a) { UnitsTotal(a, b); }
    forall a, b | ByUnits()(a, b) && ByUnits()(b, a) ensures a == b { UnitsTotal(a, b); }
    forall a, b, c | ByUnits()(a, b) && ByUnits()(b, c) ensures ByUnits()(a, c) { UnitsTransitive(a, b, c); }
  }

  lemma {:induction false} FilterSorted(keys: seq<Units>, keep: Units -> bool)
    requires Sorted(keys, ByUnits())
    ensures Sorted(FilterMap(keys, keep, Itself()), ByUnits())
  {
    if keys != [] {
      FilterSorted(keys[1..], keep);
      var rest := FilterMap(keys[1..], keep, Itself());
      FilterMembers(keys[1..], keep);
      forall j | 0 <= j < |rest| ensures ByUnits()(keys[0], rest[j]) { assert rest[j] in rest; }
      assert FilterMap(keys, keep, Itself()) == One(keys[0], keep, Itself()) + rest;
    }
  }

  lemma {:induction false} FilterAll(keys: seq<Units>, keep: Units -> bool)
    requires forall k | k in keys :: keep(k)
    ensures FilterMap(keys, keep, Itself()) == keys
  {
    if keys != [] { FilterAll(keys[1..], keep); }
  }

  // ---------------------------------------------------------------- the normalised object

  /** The keys of the normalised object. */
  function CanonicalKeys(ms: seq<Member>): seq<Units> { KeptKeys(Sort(Keys(ms), ByUnits()), ms) }

  lemma CanonicalKeysAre(ms: seq<Member>)
    requires NoDuplicates(Keys(ms))
    ensures Sorted(CanonicalKeys(ms), ByUnits()) && NoDuplicates(CanonicalKeys(ms))
    ensures forall k :: k in CanonicalKeys(ms) <==> !Get(ms, k).Undefined? && k != PROTO
  {
    var sorted := Sort(Keys(ms), ByUnits());
    ByUnitsTotal();
    SortSorts(Keys(ms), ByUnits());
    NoDuplicatesMultiset(Keys(ms));
    NoDuplicatesMultiset(sorted);
    FilterSorted(sorted, Kept(ms));
    FilterNoDuplicates(sorted, Kept(ms));
    FilterMembers(sorted, Kept(ms));
    forall k ensures k in CanonicalKeys(ms) <==> !Get(ms, k).Undefined? && k != PROTO {
      GetAt(ms, k);
      assert k in sorted <==> k in multiset(Keys(ms));
    }
  }

  lemma CanonicalKeysInOrder(ms: seq<Member>)
    requires NoDuplicates(Keys(ms))
    ensures CanonicalKeys(ms) == InOrder(DenoteMembers(ms, {PROTO}).Keys)
  {
    var s := DenoteMembers(ms, {PROTO}).Keys;
    CanonicalKeysAre(ms);
    DenoteAt(ms, {PROTO});
    InOrderMembers(s);
    ByUnitsTotal();
    SortSorts(SomeOrder(s), ByUnits());
    SameElements(CanonicalKeys(ms), InOrder(s));
    SortedUnique(CanonicalKeys(ms), InOrder(s), ByUnits());
  }

  lemma NormalisedMembers(ms: seq<Member>, key: Units)
    requires NoDuplicates(Keys(ms))
    ensures var out := Canonicalize(Obj(ms)).members;
      Keys(out) == CanonicalKeys(ms)
      && Get(out, key) == if key in CanonicalKeys(ms) then Canonicalize(Get(ms, key)) else Undefined
  {
    CanonicalKeysAre(ms);
    SelectGet(CanonicalKeys(ms), CanonicalizeMembers(ms), key);
    GetCanonical(ms, key);
  }

  // ---------------------------------------------------------------- canonical text = rendered data

  lemma {:induction false} PrintedAt(ms: seq<Member>, key: Units)
    requires !Get(ms, key).Undefined?
    ensures Printed(ms)[key] == Print(Get(ms, key))
  {
    if ms[0].key != key { PrintedAt(ms[1..], key); }
  }

  /** The canonical text is the text of the canonical data, and of nothing else. */
  lemma {:induction false} PrintIsRender(v: Value)
    requires Valid(v)
    ensures Print(Canonicalize(v)) == Render(CanonicalData(v))
    decreases v
  {
    match v
    case Arr(es) => PrintIsRenderAll(es);
    case Obj(ms) =>
      forall k | !Get(ms, k).Undefined? ensures Print(Canonicalize(Get(ms, k))) == Render(CanonicalData(Get(ms, k))) {
        GetAt(ms, k);
        var i :| 0 <= i < |ms| && ms[i].key == k && ms[i].value == Get(ms, k);
        PrintIsRender(ms[i].value);
      }
      ObjectIsRender(ms);
    case _ =>
  }

  lemma {:induction false} PrintIsRenderAll(es: seq<Value>)
    requires AllValid(es)
    ensures PrintAll(CanonicalizeAll(es)) == RenderAll(DenoteAll(es, {PROTO}))
    decreases es
  {
    if es != [] {
      PrintIsRender(es[0]);
      PrintIsRenderAll(es[1..]);
      assert CanonicalizeAll(es)[1..] == CanonicalizeAll(es[1..]);
      assert DenoteAll(es, {PROTO})[1..] == DenoteAll(es[1..], {PROTO});
    }
  }

  lemma PrintedTexts(out: seq<Member>, texts: map<Units, Units>)
    requires forall k :: k in texts <==> !Get(out, k).Undefined?
    requires forall k | k in texts :: Print(Get(out, k)) == texts[k]
    ensures Printed(out) == texts
  {
    hide Print, Get;
    forall k | k in texts ensures Printed(out)[k] == texts[k] { PrintedAt(out, k); }
  }

  lemma ObjectPrints(out: seq<Member>)
    requires forall k | k in Keys(out) :: !Get(out, k).Undefined?
    ensures forall k | k in OwnKeys(Keys(out)) :: k in Printed(out)
    ensures Print(Obj(out)) == [LBRACE] + JoinMembers(OwnKeys(Keys(out)), Printed(out)) + [RBRACE]
  {
    hide Sort, OwnKeys, FilterMap, JoinMembers, Get, Printed, Keys;
    FilterAll(Keys(out), Defined(out));
    OwnKeysKept(out);
  }

  /** An object whose members print as the data `m` renders, in the order of its names, prints as `m`. */
  lemma ObjectText(out: seq<Member>, m: map<Units, Data>)
    requires Keys(out) == InOrder(m.Keys)
    requires forall k :: k in m <==> !Get(out, k).Undefined?
    requires forall k | k in m :: Print(Get(out, k)) == Render(m[k])
    ensures Print(Obj(out)) == Render(DObj(m))
  {
    hide OwnKeys, InOrder, JoinMembers, Get, Keys, Printed, Print;
    var texts := map k | k in m :: Render(m[k]);
    PrintedTexts(out, texts);
    InOrderMembers(m.Keys);
    ObjectPrints(out);
  }

  lemma ObjectIsRender(ms: seq<Member>)
    requires NoDuplicates(Keys(ms))
    requires forall k | !Get(ms, k).Undefined? :: Print(Canonicalize(Get(ms, k))) == Render(CanonicalData(Get(ms, k)))
    ensures Print(Canonicalize(Obj(ms))) == Render(CanonicalData(Obj(ms)))
  {
    hide Sort, InOrder, Get, KeptKeys, CanonicalizeMembers, Print, Render, DenoteMembers, CanonicalKeys;
    var out, m := Canonicalize(Obj(ms)).members, DenoteMembers(ms, {PROTO});
    CanonicalKeysAre(ms);
    CanonicalKeysInOrder(ms);
    DenoteAt(ms, {PROTO});
    NormalisedMembers(ms, []);
    forall k ensures k in m <==> !Get(out, k).Undefined?
             ensures k in m ==> Print(Get(out, k)) == Render(m[k]) {
      NormalisedMembers(ms, k);
    }
    ObjectText(out, m);
  }

  /** Reading the canonical text gives the canonical data of the value. */
  lemma CanonicalRoundTrip(v: Value)
    requires Valid(v) && !v.Undefined?
    ensures CanonicalText(v).Some? && ParseDocument(CanonicalText(v).value) == Ok(CanonicalData(v), [])
  {
    PrintIsRender(v);
    ParseRender(CanonicalData(v), []);
    assert Render(CanonicalData(v)) + [] == Render(CanonicalData(v));
  }

  /** Two values have the same canonical text exactly when they stand for the same canonical data. */
  lemma SameTextIffSameData(a: Value, b: Value)
    requires Valid(a) && Valid(b)
    ensures CanonicalText(a) == CanonicalText(b) <==> a.Undefined? == b.Undefined? && CanonicalData(a) == CanonicalData(b)
  {
    if !a.Undefined? { CanonicalRoundTrip(a); PrintIsRender(a); }
    if !b.Undefined? { CanonicalRoundTrip(b); PrintIsRender(b); }
  }

  /** The order in which an object's properties were created does not matter. */
  lemma MemberOrderIrrelevant(a: seq<Member>, b: seq<Member>)
    requires Valid(Obj(a)) && Valid(Obj(b)) && multiset(a) == multiset(b)
    ensures CanonicalText(Obj(a)) == CanonicalText(Obj(b))
  {
    DenoteAt(a, {PROTO});
    DenoteAt(b, {PROTO});
    forall k ensures Get(a, k) == Get(b, k) {
      SameGet(a, b, k);
      SameGet(b, a, k);
    }
    assert DenoteMembers(a, {PROTO}) == DenoteMembers(b, {PROTO});
    SameTextIffSameData(Obj(a), Obj(b));
  }

  lemma SameGet(a: seq<Member>, b: seq<Member>, k: Units)
    requires NoDuplicates(Keys(b)) && multiset(a) == multiset(b)
    ensures Get(a, k).Undefined? || Get(b, k) == Get(a, k)
  {
    GetAt(a, k);
    if !Get(a, k).Undefined? {
      var i :| 0 <= i < |a| && a[i].key == k && a[i].value == Get(a, k);
      assert a[i] in multiset(b);
      var j :| 0 <= j < |b| && b[j] == a[i];
      GetUnique(b, j);
    }
  }

  // ---------------------------------------------------------------- idempotence

  lemma {:induction false} CanonicalizeIdempotent(v: Value)
    requires Valid(v)
    ensures Canonicalize(Canonicalize(v)) == Canonicalize(v)
    decreases v
  {
    match v
    case Arr(es) => CanonicalizeAllIdempotent(es);
    case Obj(ms) =>
      forall k | !Get(ms, k).Undefined? ensures Canonicalize(Canonicalize(Get(ms, k))) == Canonicalize(Get(ms, k)) {
        GetAt(ms, k);
        var i :| 0 <= i < |ms| && ms[i].key == k && ms[i].value == Get(ms, k);
        CanonicalizeIdempotent(ms[i].value);
      }
      ObjectIdempotent(ms);
    case _ =>
  }

  lemma {:induction false} CanonicalizeAllIdempotent(es: seq<Value>)
    requires AllValid(es)
    ensures CanonicalizeAll(CanonicalizeAll(es)) == CanonicalizeAll(es)
    decreases es
  {
    if es != [] {
      CanonicalizeIdempotent(es[0]);
      CanonicalizeAllIdempotent(es[1..]);
      assert CanonicalizeAll(es)[1..] == CanonicalizeAll(es[1..]);
    }
  }

  lemma ObjectIdempotent(ms: seq<Member>)
    requires NoDuplicates(Keys(ms))
    requires forall k | !Get(ms, k).Undefined? :: Canonicalize(Canonicalize(Get(ms, k))) == Canonicalize(Get(ms, k))
    ensures Canonicalize(Canonicalize(Obj(ms))) == Canonicalize(Obj(ms))
  {
    hide Sort, FilterMap, Get, CanonicalizeMembers;
    var out := Canonicalize(Obj(ms)).members;
    var keys := CanonicalKeys(ms);
    CanonicalKeysAre(ms);
    NormalisedMembers(ms, []);
    ByUnitsTotal();
    SortOfSorted(keys, ByUnits());
    forall k | k in keys ensures Kept(out)(k) && Get(CanonicalizeMembers(out), k) == Get(CanonicalizeMembers(ms), k) {
      NormalisedMembers(ms, k);
      GetCanonical(out, k);
      GetCanonical(ms, k);
    }
    FilterAll(keys, Kept(out));
    assert Canonicalize(Obj(out)).members == Select(keys, CanonicalizeMembers(out));
    assert Select(keys, CanonicalizeMembers(out)) == Select(keys, CanonicalizeMembers(ms));
  }

  // ---------------------------------------------------------------- the order of the keys

  /** Code-unit order: at the first difference the smaller unit comes first, and a prefix comes before what it begins. */
  ghost predicate Before(k: Units, l: Units) {
    || (|k| < |l| && k == l[..|k|])
    || exists p: nat :: p < |k| && p < |l| && k[..p] == l[..p] && k[p] < l[p]
  }

  lemma {:induction false} SmallerIsBefore(k: Units, l: Units)
    requires UnitsLe(k, l) && k != l
    ensures Before(k, l)
  {
    if k == [] {
      assert k == l[..0];
    } else if k[0] < l[0] {
      assert k[..0] == l[..0];
    } else {
      var a, b := k[1..], l[1..];
      assert k == [k[0]] + a && l == [l[0]] + b;
      SmallerIsBefore(a, b);
      if p: nat :| p < |a| && p < |b| && a[..p] == b[..p] && a[p] < b[p] {
        assert k[..p + 1] == [k[0]] + a[..p] && l[..p + 1] == [l[0]] + b[..p];
      } else {
        assert l[..|k|] == [l[0]] + b[..|a|];
      }
    }
  }

  /** In every object inside the value the properties are in ascending code-unit order, none is undefined, and none is
      called `__proto__`. */
  ghost predicate KeysAscend(v: Value)
    decreases v
  {
    match v
    case Arr(es) => forall i | 0 <= i < |es| :: KeysAscend(es[i])
    case Obj(ms) =>
      && (forall i, j | 0 <= i < j < |ms| :: Before(ms[i].key, ms[j].key))
      && (forall i | 0 <= i < |ms| :: ms[i].key != PROTO && !ms[i].value.Undefined? && KeysAscend(ms[i].value))
    case _ => true
  }

  lemma MemberKeysAscend(ms: seq<Member>)
    requires NoDuplicates(Keys(ms))
    ensures var out := Canonicalize(Obj(ms)).members;
      && (forall i, j | 0 <= i < j < |out| :: Before(out[i].key, out[j].key))
      && (forall k :: k in Keys(out) <==> !Get(ms, k).Undefined? && k != PROTO)
      && (forall i | 0 <= i < |out| :: out[i].key != PROTO && out[i].value == Canonicalize(Get(ms, out[i].key)) && !Get(ms, out[i].key).Undefined?)
  {
    hide Get, Before, Sort, KeptKeys, CanonicalizeMembers;
    var out := Canonicalize(Obj(ms)).members;
    CanonicalKeysAre(ms);
    NormalisedMembers(ms, []);
    var keys := Keys(out);
    forall i, j | 0 <= i < j < |out| ensures Before(out[i].key, out[j].key) {
      assert keys[i] != keys[j] && ByUnits()(keys[i], keys[j]);
      SmallerIsBefore(keys[i], keys[j]);
    }
    forall i | 0 <= i < |out| ensures out[i].key != PROTO && out[i].value == Canonicalize(Get(ms, out[i].key)) && !Get(ms, out[i].key).Undefined? {
      assert keys[i] in CanonicalKeys(ms);
      NormalisedMembers(ms, keys[i]);
      GetUnique(out, i);
    }
  }

  lemma {:induction false} CanonicalizeAllAt(es: seq<Value>, i: nat)
    requires i < |es|
    ensures CanonicalizeAll(es)[i] == Canonicalize(es[i])
  {
    if i > 0 { CanonicalizeAllAt(es[1..], i - 1); }
  }

  /** The normalised value has its keys in order, at every depth. */
  lemma {:induction false} CanonicalKeysAscend(v: Value)
    requires Valid(v)
    ensures KeysAscend(Canonicalize(v))
    decreases v
  {
    hide Before, Get, Select;
    match v
    case Arr(es) =>
      forall i | 0 <= i < |es| ensures KeysAscend(CanonicalizeAll(es)[i]) {
        AllValidAt(es, i);
        CanonicalizeAllAt(es, i);
        CanonicalKeysAscend(es[i]);
      }
    case Obj(ms) =>
      MemberKeysAscend(ms);
      var out := Canonicalize(v).members;
      forall i | 0 <= i < |out| ensures KeysAscend(out[i].value) && !out[i].value.Undefined? {
        GetAt(ms, out[i].key);
        var j :| 0 <= j < |ms| && ms[j].key == out[i].key && ms[j].value == Get(ms, out[i].key);
        MembersValidAt(ms, j);
        CanonicalKeysAscend(ms[j].value);
        DefinedStays(ms[j].value);
      }
      ObjectAscends(out);
    case _ =>
  }

  lemma DefinedStays(v: Value)
    ensures Canonicalize(v).Undefined? <==> v.Undefined?
  {
  }

  lemma ObjectAscends(ms: seq<Member>)
    requires forall i, j | 0 <= i < j < |ms| :: Before(ms[i].key, ms[j].key)
    requires forall i | 0 <= i < |ms| :: ms[i].key != PROTO && !ms[i].value.Undefined? && KeysAscend(ms[i].value)
    ensures KeysAscend(Obj(ms))
  {
  }

  /** `k` comes before `l` in the sequence. */
  ghost predicate Earlier(keys: seq<Units>, k: Units, l: Units) { exists a, b | 0 <= a < b < |keys| :: keys[a] == k && keys[b] == l }

  /** The order in which an object's keys are printed: array indices in ascending order, then all other keys in the order
      of their creation. */
  lemma PrintedOrder(keys: seq<Units>, i: nat, j: nat)
    requires NoDuplicates(keys) && i < j < |OwnKeys(keys)|
    ensures var k, l := OwnKeys(keys)[i], OwnKeys(keys)[j];
      && (IsIndexKey(l) ==> IsIndexKey(k) && UnitsValue(k) <= UnitsValue(l))
      && (!IsIndexKey(k) ==> Earlier(keys, k, l))
  {
    hide IsIndexKey, FilterMap, Sort, Earlier;
    var indices, others := FilterMap(keys, IndexKeys(), Itself()), FilterMap(keys, OtherKeys(), Itself());
    var first := Sort(indices, ByIndex());
    SortSortsByIndex(indices);
    SortPermutes(indices, ByIndex());
    FilterMembers(keys, IndexKeys());
    FilterMembers(keys, OtherKeys());
    var k, l := OwnKeys(keys)[i], OwnKeys(keys)[j];
    if i < |first| {
      assert k == first[i] && k in multiset(first) && k in multiset(indices);
      assert k in indices && IndexKeys()(k);
    } else {
      assert k == others[i - |first|] && k in others && OtherKeys()(k);
    }
    if j < |first| {
      assert l == first[j] && ByIndex()(first[i], first[j]);
      assert l in multiset(first) && l in multiset(indices);
      assert l in indices && IndexKeys()(l);
    } else {
      assert l == others[j - |first|] && l in others && OtherKeys()(l);
      if i >= |first| {
        var a, b := FilterKeepsOrder(keys, OtherKeys(), i - |first|, j - |first|);
        EarlierAt(keys, a, b);
      }
    }
  }

  /** The order in which a normalised object is printed: array indices by number, then all other keys ascending by code units. */
  lemma CanonicalPrintedOrder(ms: seq<Member>, i: nat, j: nat)
    requires NoDuplicates(Keys(ms))
    requires i < j < |OwnKeys(Keys(Canonicalize(Obj(ms)).members))|
    ensures var keys := OwnKeys(Keys(Canonicalize(Obj(ms)).members));
      && (IsIndexKey(keys[j]) ==> IsIndexKey(keys[i]) && UnitsValue(keys[i]) <= UnitsValue(keys[j]))
      && (!IsIndexKey(keys[i]) ==> Before(keys[i], keys[j]))
  {
    hide OwnKeys, Before, IsIndexKey, UnitsValue, Get, Select, CanonicalKeys, CanonicalizeMembers;
    MemberKeysAscend(ms);
    var out := Canonicalize(Obj(ms)).members;
    forall a, b | 0 <= a < b < |out| ensures out[a].key != out[b].key { BeforeDiffers(out[a].key, out[b].key); }
    PrintedOrder(Keys(out), i, j);
  }

  lemma BeforeDiffers(k: Units, l: Units)
    requires Before(k, l)
    ensures k != l
  {
  }

  lemma EarlierAt(keys: seq<Units>, a: nat, b: nat)
    requires a < b < |keys|
    ensures Earlier(keys, keys[a], keys[b])
  {
  }

  lemma {:induction false} FilterKeepsOrder(keys: seq<Units>, keep: Units -> bool, i: nat, j: nat) returns (a: nat, b: nat)
    requires i < j < |FilterMap(keys, keep, Itself())|
    ensures a < b < |keys| && keys[a] == FilterMap(keys, keep, Itself())[i] && keys[b] == FilterMap(keys, keep, Itself())[j]
  {
    var rest := FilterMap(keys[1..], keep, Itself());
    if keep(keys[0]) && i == 0 {
      FilterMembers(keys[1..], keep);
      assert rest[j - 1] in rest;
      var c :| 0 <= c < |keys[1..]| && keys[1..][c] == rest[j - 1];
      a, b := 0, c + 1;
    } else {
      var shift := if keep(keys[0]) then 1 else 0;
      a, b := FilterKeepsOrder(keys[1..], keep, i - shift, j - shift);
      a, b := a + 1, b + 1;
    }
  }

  /** Sorting by numeric value, which is a total preorder. */
  lemma {:induction false} SortSortsByIndex(keys: seq<Units>)
    ensures Sorted(Sort(keys, ByIndex()), ByIndex())
  {
    if keys != [] {
      SortSortsByIndex(keys[1..]);
      InsertSortsByIndex(keys[0], Sort(keys[1..], ByIndex()));
    }
  }

  lemma {:induction false} InsertSortsByIndex(x: Units, s: seq<Units>)
    requires Sorted(s, ByIndex())
    ensures Sorted(Insert(x, s, ByIndex()), ByIndex())
  {
    hide UnitsValue;
    if s == [] || ByIndex()(x, s[0]) {
    } else {
      InsertSortsByIndex(x, s[1..]);
      InsertPermutes(x, s[1..], ByIndex());
      var t := Insert(x, s[1..], ByIndex());
      forall i | 0 <= i < |t| ensures ByIndex()(s[0], t[i]) {
        assert t[i] in multiset(t);
        assert t[i] == x || t[i] in s[1..];
      }
    }
  }

  // ---------------------------------------------------------------- what JSON.stringify writes

  lemma {:induction false} PrintAllAt(es: seq<Value>, i: nat)
    requires i < |es|
    ensures PrintAll(es)[i] == Print(es[i])
  {
    hide Print;
    if i > 0 { PrintAllAt(es[1..], i - 1); }
  }

  /** The names that `JSON.stringify` writes, in the order of the object, are those of its data. */
  lemma WrittenKeys(ms: seq<Member>)
    requires NoDuplicates(Keys(ms))
    ensures var keys := OwnKeys(FilterMap(Keys(ms), Defined(ms), Itself()));
      NoDuplicates(keys) && forall k :: k in keys <==> k in DenoteMembers(ms, {})
  {
    hide Get, Keys, OwnKeys, DenoteMembers, Denote;
    var defined := FilterMap(Keys(ms), Defined(ms), Itself());
    FilterNoDuplicates(Keys(ms), Defined(ms));
    FilterMembers(Keys(ms), Defined(ms));
    OwnKeysMembers(defined);
    DenoteAt(ms, {});
    forall k ensures k in OwnKeys(defined) <==> k in DenoteMembers(ms, {}) { GetAt(ms, k); }
  }

  lemma {:induction false} PrintReads(v: Value)
    requires Valid(v)
    ensures Reads(Print(v), JsonData(v))
    decreases v
  {
    hide Reads, Printed, Get, Keys, OwnKeys, FilterMap, JoinMembers, JoinElements, Quote;
    match v
    case Arr(es) =>
      DenoteAllAt(es, {});
      forall i | 0 <= i < |es| ensures Reads(PrintAll(es)[i], DenoteAll(es, {})[i]) {
        AllValidAt(es, i);
        PrintAllAt(es, i);
        PrintReads(es[i]);
      }
      ReadArray(PrintAll(es), DenoteAll(es, {}));
    case Obj(ms) =>
      forall i | 0 <= i < |ms| ensures Reads(Print(ms[i].value), JsonData(ms[i].value)) {
        MembersValidAt(ms, i);
        PrintReads(ms[i].value);
      }
      ObjectReads(ms);
    case _ => PlainReads(v);
  }

  lemma PlainReads(v: Value)
    requires !v.Arr? && !v.Obj?
    ensures Reads(Print(v), JsonData(v))
  {
    hide Reads, Quote;
    ReadScalar(JsonData(v));
  }

  lemma ObjectReads(ms: seq<Member>)
    requires NoDuplicates(Keys(ms)) && forall i | 0 <= i < |ms| :: Reads(Print(ms[i].value), JsonData(ms[i].value))
    ensures Reads(Print(Obj(ms)), JsonData(Obj(ms)))
  {
    hide Reads, Printed, Get, Keys, OwnKeys, FilterMap, JoinMembers, DenoteMembers;
    var keys, texts, m := OwnKeys(FilterMap(Keys(ms), Defined(ms), Itself())), Printed(ms), DenoteMembers(ms, {});
    WrittenKeys(ms);
    OwnKeysKept(ms);
    DenoteAt(ms, {});
    forall k | k in keys ensures k in texts && Reads(texts[k], m[k]) {
      PrintedAt(ms, k);
      GetAt(ms, k);
    }
    ReadObject(keys, texts, m);
  }

  /** `JSON.stringify` writes the data of the value, whatever the order of its members. */
  lemma StringifyReads(v: Value)
    requires Valid(v) && !v.Undefined?
    ensures Stringify(v).Some? && ParseDocument(Stringify(v).value) == Ok(JsonData(v), [])
  {
    hide Print, ParseValue;
    PrintReads(v);
    assert Print(v) + [] == Print(v);
  }

  // ---------------------------------------------------------------- what canonicalize loses

  /** No object inside the value has a defined own member named `__proto__`. */
  ghost predicate ProtoFree(v: Value)
    decreases v
  {
    match v
    case Arr(es) => forall i | 0 <= i < |es| :: ProtoFree(es[i])
    case Obj(ms) => Get(ms, PROTO).Undefined? && forall i | 0 <= i < |ms| :: ProtoFree(ms[i].value)
    case _ => true
  }

  /** The canonical text says the same as the text of `JSON.stringify` exactly when no `__proto__` member is inside. */
  lemma FaithfulIffProtoFree(v: Value)
    requires Valid(v) && !v.Undefined?
    ensures CanonicalText(v).Some? && Stringify(v).Some?
    ensures ParseDocument(CanonicalText(v).value) == ParseDocument(Stringify(v).value) <==> ProtoFree(v)
  {
    hide CanonicalText, Stringify, ParseDocument;
    CanonicalRoundTrip(v);
    StringifyReads(v);
    SameDataIffProtoFree(v);
  }

  lemma {:induction false} SameDataIffProtoFree(v: Value)
    requires Valid(v)
    ensures CanonicalData(v) == JsonData(v) <==> ProtoFree(v)
    decreases v
  {
    match v
    case Arr(es) =>
      forall i | 0 <= i < |es| ensures CanonicalData(es[i]) == JsonData(es[i]) <==> ProtoFree(es[i]) {
        AllValidAt(es, i);
        SameDataIffProtoFree(es[i]);
      }
      DenoteAllAt(es, {PROTO});
      DenoteAllAt(es, {});
      var x, y := DenoteAll(es, {PROTO}), DenoteAll(es, {});
      assert x == y <==> forall i | 0 <= i < |es| :: x[i] == y[i];
    case Obj(ms) =>
      forall i | 0 <= i < |ms| ensures CanonicalData(ms[i].value) == JsonData(ms[i].value) <==> ProtoFree(ms[i].value) {
        MembersValidAt(ms, i);
        SameDataIffProtoFree(ms[i].value);
      }
      SameMembersIffProtoFree(ms);
    case _ =>
  }

  lemma SameMembersIffProtoFree(ms: seq<Member>)
    requires NoDuplicates(Keys(ms))
    requires forall i | 0 <= i < |ms| :: CanonicalData(ms[i].value) == JsonData(ms[i].value) <==> ProtoFree(ms[i].value)
    ensures DenoteMembers(ms, {PROTO}) == DenoteMembers(ms, {}) <==> ProtoFree(Obj(ms))
  {
    hide Get, DenoteMembers, Denote, Keys;
    if ProtoFree(Obj(ms)) {
      SameMembers(ms);
    } else {
      DenoteAt(ms, {PROTO});
      DenoteAt(ms, {});
      if Get(ms, PROTO).Undefined? {
        var i :| 0 <= i < |ms| && !ProtoFree(ms[i].value);
        GetUnique(ms, i);
        assert DenoteMembers(ms, {PROTO})[ms[i].key] != DenoteMembers(ms, {})[ms[i].key];
      } else {
        assert PROTO in DenoteMembers(ms, {}) && PROTO !in DenoteMembers(ms, {PROTO});
      }
    }
  }

  lemma SameMembers(ms: seq<Member>)
    requires Get(ms, PROTO).Undefined? && forall i | 0 <= i < |ms| :: CanonicalData(ms[i].value) == JsonData(ms[i].value)
    ensures DenoteMembers(ms, {PROTO}) == DenoteMembers(ms, {})
  {
    hide Get, DenoteMembers, Denote, Keys;
    var x, y := DenoteMembers(ms, {PROTO}), DenoteMembers(ms, {});
    DenoteAt(ms, {PROTO});
    DenoteAt(ms, {});
    forall k | k in y ensures k in x && x[k] == y[k] {
      GetAt(ms, k);
      var i :| 0 <= i < |ms| && ms[i].key == k && ms[i].value == Get(ms, k);
    }
    assert x.Keys == y.Keys;
  }

  lemma {:induction false} AllValidAt(es: seq<Value>, i: nat)
    requires AllValid(es) && i < |es|
    ensures Valid(es[i])
  {
    if i > 0 { AllValidAt(es[1..], i - 1); }
  }

  lemma {:induction false} MembersValidAt(ms: seq<Member>, i: nat)
    requires MembersValid(ms) && i < |ms|
    ensures Valid(ms[i].value)
  {
    if i > 0 { MembersValidAt(ms[1..], i - 1); } else { assert MemberValid(ms[0]); }
  }

  lemma {:induction false} DenoteAllAt(es: seq<Value>, dropped: set<Units>)
    ensures forall i | 0 <= i < |es| :: DenoteAll(es, dropped)[i] == Denote(es[i], dropped)
  {
    if es != [] {
      DenoteAllAt(es[1..], dropped);
      forall i | 0 <= i < |es| ensures DenoteAll(es, dropped)[i] == Denote(es[i], dropped) {
        if i > 0 { assert es[i] == es[1..][i - 1]; }
      }
    }
  }

  /** An object with one own `__proto__` member canonicalises to the empty object. */
  lemma ProtoIsLost()
    ensures CanonicalText(Obj([Member(PROTO, Bool(true))])) == CanonicalText(Obj([]))
    ensures JsonData(Obj([Member(PROTO, Bool(true))])) != JsonData(Obj([]))
  {
    var a, b := [Member(PROTO, Bool(true))], [];
    assert Keys(a) == [PROTO] && Keys(b) == [];
    assert Valid(a[0].value) && MemberValid(a[0]) && a[1..] == [];
    assert MembersValid(a) && MembersValid(b);
    DenoteAt(a, {PROTO});
    DenoteAt(a, {});
    DenoteAt(b, {});
    DenoteAt(b, {PROTO});
    assert Get(a, PROTO) == Bool(true);
    assert DenoteMembers(a, {PROTO}) == DenoteMembers(b, {PROTO});
    assert PROTO in DenoteMembers(a, {}) && PROTO !in DenoteMembers(b, {});
    SameTextIffSameData(Obj(a), Obj(b));
  }
}
