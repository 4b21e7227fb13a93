/** A platform that satisfies `Sound`: the assumption is consistent. Documents are printed by way of canonical data, whose
    text reads back. */
module SoundWorlds {
  import opened Numbers
  import opened Strings
  import opened Documents
  import C = CanonicalJson
  import P = JsonParser

  // ---------------------------------------------------------------- names, numbers and texts as code units

  function Listed(): set<Key> {
    {Release, Status, CreatedAt, DrillDir, Artifacts, Path, SizeBytes, Sha256, Profile, Mode, Strict, Ok, BundleDir,
     Configured, RequiredSites, LegacyCoreExtractionEvidence, LegacyCryptoBoundaryEvidence, TemplateWorkerMapCoherence,
     ForgetForwardConfig, TemplateSignatureRefMap, TemplateVariantMap, Id, UpdatedAt, RequiredChecks, CheckList, Evidence,
     EvidenceRefs, Label, Link, ProofKey, Proofs, ManualProofs, RequiredCount, ProvidedCount, MissingCount,
     MissingProofKeys, MissingProofLabels, Validations, Steps, ExitCode, Issues, Message, Severity, OverallStatus,
     PackReady, ReadinessReady, DrillCheckOk, ManifestValidated, AoGateValidated, ResultKey, CloseoutReady, CloseoutState,
     AutomationState, AoManualState, Blockers, AutomationBlockers, AoManualBlockers, Warnings, SignoffRecord,
     FinalMigrationSummary, File, RoutePrefix, P95Rps, BlockedRate, BurstFactor}
  }

  lemma ListedKey(k: Key)
    requires !k.Index? && !k.Other?
    ensures k in Listed()
  {
  }

  ghost function InSomeOrder(s: set<Key>): (r: seq<Key>)
    ensures forall k | k in s :: k in r
  {
    if s == {} then [] else
    var k :| k in s;
    [k] + InSomeOrder(s - {k})
  }

  ghost predicate Complete(order: seq<Key>) { forall k: Key | !k.Index? && !k.Other? :: k in order }

  lemma SomeCompleteOrder()
    ensures exists order: seq<Key> :: Complete(order)
  {
    hide Listed, InSomeOrder;
    var order := InSomeOrder(Listed());
    forall k: Key | !k.Index? && !k.Other? ensures k in order { ListedKey(k); }
    assert Complete(order);
  }

  ghost function Order(): (r: seq<Key>)
    ensures Complete(r)
  {
    SomeCompleteOrder();
    var order: seq<Key> :| Complete(order);
    order
  }

  /** The number of a key; the listed ones come first. */
  ghost function Rank(k: Key): nat {
    if k.Index? then |Order()| + 2 * k.n
    else if k.Other? then |Order()| + 2 * k.n + 1
    else
      var i :| 0 <= i < |Order()| && Order()[i] == k;
      i
  }

  lemma RankOf(k: Key)
    ensures if k.Index? then Rank(k) == |Order()| + 2 * k.n else if k.Other? then Rank(k) == |Order()| + 2 * k.n + 1
            else Rank(k) < |Order()| && Order()[Rank(k)] == k
  {
    hide Order;
    if !k.Index? && !k.Other? { assert k in Order(); }
  }

  lemma RankOnce(a: Key, b: Key)
    requires Rank(a) == Rank(b)
    ensures a == b
  {
    hide Order, Rank, Complete;
    RankOf(a);
    RankOf(b);
  }

  function Tally(n: nat): (r: C.Units)
    ensures |r| == n
  {
    seq(n, _ => 0x61)
  }

  ghost function NameUnits(k: Key): C.Units { Tally(Rank(k)) }

  /** Two units for every character. */
  function TextUnits(s: string): (r: C.Units)
    ensures |r| == 2 * |s|
  {
    seq(2 * |s|, i requires 0 <= i < 2 * |s| => if i % 2 == 0 then s[i / 2] as int / 0x1000 else s[i / 2] as int % 0x1000)
  }

  lemma TextUnitsOnce(a: string, b: string)
    requires TextUnits(a) == TextUnits(b)
    ensures a == b
  {
    forall i | 0 <= i < |a| ensures a[i] == b[i] {
      assert TextUnits(a)[2 * i] == a[i] as int / 0x1000 && TextUnits(b)[2 * i] == b[i] as int / 0x1000;
      assert TextUnits(a)[2 * i + 1] == a[i] as int % 0x1000 && TextUnits(b)[2 * i + 1] == b[i] as int % 0x1000;
    }
  }

  // ---------------------------------------------------------------- documents as data

  /** A name that no property has. */
  const NUMBER: C.Units := [0x62]

  function NumberData(n: Number): C.Data {
    C.DArr([C.DBool(n.units < 0), C.DStr(Tally(if n.units < 0 then -n.units else n.units)), C.DStr(Tally(n.parts))])
  }

  lemma NumberDataOnce(a: Number, b: Number)
    requires NumberData(a) == NumberData(b)
    ensures a == b
  {
    assert NumberData(a).elems[0] == NumberData(b).elems[0];
    assert NumberData(a).elems[1] == NumberData(b).elems[1];
    assert NumberData(a).elems[2] == NumberData(b).elems[2];
  }

  ghost function Encode(j: Json): C.Data
    decreases j
  {
    match j
    case Null => C.DNull
    case Bool(b) => C.DBool(b)
    case Num(n) => C.DObj(map[NUMBER := NumberData(n)])
    case Str(s) => C.DStr(TextUnits(s))
    case Arr(es) => C.DArr(seq(|es|, i requires 0 <= i < |es| => Encode(es[i])))
    case Obj(m) => C.DObj(map u | u in NamesOf(m) :: Encode(m[KeyAt(m, u)]))
  }

  ghost function NamesOf(m: map<Key, Json>): set<C.Units> { set k | k in m :: NameUnits(k) }

  ghost function KeyAt(m: map<Key, Json>, u: C.Units): (k: Key)
    requires u in NamesOf(m)
    ensures k in m && NameUnits(k) == u
  {
    var k :| k in m && NameUnits(k) == u;
    k
  }

  lemma KeyAtName(m: map<Key, Json>, k: Key)
    requires k in m
    ensures NameUnits(k) in NamesOf(m) && KeyAt(m, NameUnits(k)) == k
  {
    hide Rank;
    RankOnce(KeyAt(m, NameUnits(k)), k);
  }

  lemma NoNumberName(k: Key)
    ensures NameUnits(k) != NUMBER
  {
    hide Rank;
    if Rank(k) > 0 { assert NameUnits(k)[0] == 0x61; }
  }

  /** The members of an encoded object are those of the object, and none is named `NUMBER`. */
  lemma EncodedMember(m: map<Key, Json>, k: Key)
    ensures var d := Encode(Obj(m)).members; NUMBER !in d && (NameUnits(k) in d <==> k in m)
    ensures k in m ==> Encode(Obj(m)).members[NameUnits(k)] == Encode(m[k])
  {
    hide Rank, NumberData;
    if k in m { KeyAtName(m, k); }
    if NameUnits(k) in NamesOf(m) { RankOnce(KeyAt(m, NameUnits(k)), k); }
    if NUMBER in NamesOf(m) { NoNumberName(KeyAt(m, NUMBER)); }
  }

  lemma EncodedNumber(n: Number)
    ensures NUMBER in Encode(Num(n)).members && Encode(Num(n)).members[NUMBER] == NumberData(n)
  {
    hide NumberData;
  }

  lemma {:induction false} EncodeOnce(a: Json, b: Json)
    requires Encode(a) == Encode(b)
    ensures a == b
    decreases a
  {
    hide NameUnits, TextUnits, NumberData, NamesOf;
    SameKind(a, b);
    match a
    case Null =>
    case Bool(_) =>
    case Num(n) =>
      EncodedNumber(n);
      EncodedNumber(b.n);
      NumberDataOnce(n, b.n);
    case Str(s) => TextUnitsOnce(s, b.s);
    case Arr(es) =>
      forall i | 0 <= i < |es| ensures |b.elems| == |es| && es[i] == b.elems[i] {
        assert Encode(a).elems[i] == Encode(es[i]) && Encode(b).elems[i] == Encode(b.elems[i]);
        EncodeOnce(es[i], b.elems[i]);
      }
    case Obj(m) =>
      forall k: Key ensures (k in m <==> k in b.fields) && (k in m ==> m[k] == b.fields[k]) {
        EncodedMember(m, k);
        EncodedMember(b.fields, k);
        if k in m { EncodeOnce(m[k], b.fields[k]); }
      }
      assert m == b.fields;
  }

  lemma SameKind(a: Json, b: Json)
    requires Encode(a) == Encode(b)
    ensures a.Null? == b.Null? && a.Bool? == b.Bool? && a.Num? == b.Num? && a.Str? == b.Str? && a.Arr? == b.Arr? && a.Obj? == b.Obj?
  {
    hide NameUnits, TextUnits, NumberData, NamesOf;
    if a.Num? && b.Obj? { EncodedNumber(a.n); EncodedMember(b.fields, Release); }
    if b.Num? && a.Obj? { EncodedNumber(b.n); EncodedMember(a.fields, Release); }
  }

  // ---------------------------------------------------------------- the platform

  /** Two characters for every unit. */
  ghost function Text(j: Json): string {
    var u := P.Render(Encode(j));
    seq(2 * |u|, i requires 0 <= i < 2 * |u| => if i % 2 == 0 then (u[i / 2] / 0x100) as char else (u[i / 2] % 0x100) as char)
  }

  lemma TextOnce(a: Json, b: Json)
    requires Text(a) == Text(b)
    ensures a == b
  {
    hide P.Render, Encode, P.ParseValue;
    var u, v := P.Render(Encode(a)), P.Render(Encode(b));
    assert |Text(a)| == |Text(b)| == 2 * |u| == 2 * |v|;
    forall i | 0 <= i < |u| ensures u[i] == v[i] {
      assert Text(a)[2 * i] == (u[i] / 0x100) as char && Text(b)[2 * i] == (v[i] / 0x100) as char;
      assert Text(a)[2 * i + 1] == (u[i] % 0x100) as char && Text(b)[2 * i + 1] == (v[i] % 0x100) as char;
    }
    assert u == v;
    P.ParseRender(Encode(a), []);
    P.ParseRender(Encode(b), []);
    EncodeOnce(a, b);
  }

  lemma TextNotEmpty(j: Json)
    ensures Text(j) != ""
  {
    hide P.Render, Encode;
    P.RenderHead(Encode(j));
  }

  ghost function Parse(t: string): Option<Json> {
    if exists j: Json :: Text(j) == t then
      var j: Json :| Text(j) == t;
      Some(j)
    else None
  }

  ghost function Platform(): World {
    World(t => Parse(t), j => Text(j), _ => seq(64, _ => '0'), _ => 0)
  }

  /** Some platform is sound. */
  lemma PlatformIsSound()
    ensures Sound(Platform())
  {
    hide Text;
    var w := Platform();
    forall j: Json ensures w.parse(w.stringify(j)) == Some(j) && w.stringify(j) != "" {
      TextNotEmpty(j);
      var t := Text(j);
      assert Parse(t).Some? && Text(Parse(t).value) == t;
      TextOnce(Parse(t).value, j);
    }
  }
}
