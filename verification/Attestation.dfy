/** The loop form of `canonicalize`, and the digest that guards an integrity attestation. */
module Attestation {
  import opened Strings
  import opened Sorting
  import opened CanonicalJson
  import opened CanonicalJsonLaws

  /** `out[key] = value`; assigning `__proto__` does not create a property. */
  function Assign(out: seq<Member>, key: Units, value: Value): seq<Member> {
    if key == PROTO then out
    else if out == [] then [Member(key, value)]
    else if out[0].key == key then [Member(key, value)] + out[1..]
    else [out[0]] + Assign(out[1..], key, value)
  }

  lemma {:induction false} AssignNew(out: seq<Member>, key: Units, value: Value)
    requires key !in Keys(out)
    ensures Assign(out, key, value) == if key == PROTO then out else out + [Member(key, value)]
  {
    if out != [] {
      assert Keys(out)[0] == out[0].key && Keys(out)[1..] == Keys(out[1..]);
      AssignNew(out[1..], key, value);
      assert out == [out[0]] + out[1..];
      assert [out[0]] + (out[1..] + [Member(key, value)]) == out + [Member(key, value)];
    }
  }

  /** One round of the loop over the sorted keys. */
  lemma SelectSnoc(keys: seq<Units>, i: nat, ms: seq<Member>, normal: seq<Member>)
    requires i < |keys| && NoDuplicates(keys)
    ensures var out, key := Select(KeptKeys(keys[..i], ms), normal), keys[i];
      Select(KeptKeys(keys[..i + 1], ms), normal) == if Get(ms, key).Undefined? then out else Assign(out, key, Get(normal, key))
  {
    var before := KeptKeys(keys[..i], ms);
    FilterMapConcat(keys[..i], [keys[i]], Kept(ms), Itself());
    assert keys[..i + 1] == keys[..i] + [keys[i]];
    assert FilterMap([keys[i]], Kept(ms), Itself()) == One(keys[i], Kept(ms), Itself()) + FilterMap([keys[i]][1..], Kept(ms), Itself());
    FilterMembers(keys[..i], Kept(ms));
    assert Keys(Select(before, normal)) == before;
    AssignNew(Select(before, normal), keys[i], Get(normal, keys[i]));
  }

  lemma SortedOwnKeys(keys: seq<Units>)
    requires NoDuplicates(keys)
    ensures Sort(OwnKeys(keys), ByUnits()) == Sort(keys, ByUnits()) && NoDuplicates(Sort(keys, ByUnits()))
  {
    ByUnitsTotal();
    OwnKeysPermute(keys);
    SortOfPermutation(OwnKeys(keys), keys, ByUnits());
    SortPermutes(keys, ByUnits());
    NoDuplicatesMultiset(keys);
    NoDuplicatesMultiset(Sort(keys, ByUnits()));
  }

  method CanonicalizeByLoop(value: Value) returns (r: Value)
    requires Valid(value)
    ensures r == Canonicalize(value) && KeysAscend(r)
    decreases value
  {
    hide KeysAscend;
    CanonicalKeysAscend(value);
    match value
    case Arr(entries) =>
      var out := [];
      for i := 0 to |entries|
        invariant out == CanonicalizeAll(entries)[..i]
      {
        AllValidAt(entries, i);
        CanonicalizeAllAt(entries, i);
        var entry := CanonicalizeByLoop(entries[i]);
        out := out + [entry];
      }
      r := Arr(out);
    case Obj(ms) =>
      hide Sort, KeptKeys, Get, Assign, OwnKeys, Select, CanonicalizeMembers;
      var keys := Sort(OwnKeys(Keys(ms)), ByUnits());
      SortedOwnKeys(Keys(ms));
      ghost var normal := CanonicalizeMembers(ms);
      var out := [];
      SelectNone(ms, normal);
      for i := 0 to |keys|
        invariant out == Select(KeptKeys(keys[..i], ms), normal)
      {
        var entry := Get(ms, keys[i]);
        GetAt(ms, keys[i]);
        GetCanonical(ms, keys[i]);
        SelectSnoc(keys, i, ms, normal);
        if !entry.Undefined? {
          ghost var j :| 0 <= j < |ms| && ms[j].key == keys[i] && ms[j].value == entry;
          var normalised := CanonicalizeByLoop(entry);
          out := Assign(out, keys[i], normalised);
        }
      }
      assert keys[..|keys|] == keys;
      r := Obj(out);
    case _ =>
      r := value;
  }

  lemma SelectNone(ms: seq<Member>, normal: seq<Member>)
    ensures forall keys: seq<Units> :: Select(KeptKeys(keys[..0], ms), normal) == []
  {
    assert forall keys: seq<Units> :: keys[..0] == [];
  }

  // ---------------------------------------------------------------- the attestation digest

  /** The UTF-16 code units of a text in the basic plane. */
  function Ascii(s: string): (u: Units)
    ensures |u| == |s|
  {
    seq(|s|, i requires 0 <= i < |s| => if (s[i] as int) < 0x1_0000 then s[i] as int else 0)
  }

  datatype Field = ArtifactType | ScriptVersionTag | GeneratedAt | Gateways | ComparedFields | SummaryField

  const FIELDS := [ArtifactType, ScriptVersionTag, GeneratedAt, Gateways, ComparedFields, SummaryField]

  function Name(f: Field): Units {
    match f
    case ArtifactType => Ascii("artifactType")
    case ScriptVersionTag => Ascii("scriptVersionTag")
    case GeneratedAt => Ascii("generatedAt")
    case Gateways => Ascii("gateways")
    case ComparedFields => Ascii("comparedFields")
    case SummaryField => Ascii("summary")
  }

  /** The part of an attestation artifact that is hashed. */
  function Segment(artifact: seq<Member>): (r: seq<Member>)
    ensures |r| == |FIELDS|
  {
    seq(|FIELDS|, i requires 0 <= i < |FIELDS| => Member(Name(FIELDS[i]), Get(artifact, Name(FIELDS[i]))))
  }

  function HashedText(artifact: seq<Member>): Units
    requires Valid(Obj(artifact))
  {
    SegmentValid(artifact);
    CanonicalRoundTrip(Obj(Segment(artifact)));
    CanonicalText(Obj(Segment(artifact))).value
  }

  function Digest(artifact: seq<Member>, sha256Hex: Units -> Units): Units
    requires Valid(Obj(artifact))
  {
    Ascii("sha256:") + sha256Hex(HashedText(artifact))
  }

  lemma NamesDistinct(f: Field, g: Field)
    ensures Name(f) == Name(g) <==> f == g
    ensures Name(f) != PROTO && f in FIELDS
  {
    var lengths := (|Name(f)|, |Name(g)|);
    assert FIELDS[0] == ArtifactType && FIELDS[1] == ScriptVersionTag && FIELDS[2] == GeneratedAt;
    assert FIELDS[3] == Gateways && FIELDS[4] == ComparedFields && FIELDS[5] == SummaryField;
    assert |PROTO| == 9;
  }

  lemma SegmentGet(artifact: seq<Member>, f: Field)
    ensures Get(Segment(artifact), Name(f)) == Get(artifact, Name(f))
    ensures NoDuplicates(Keys(Segment(artifact)))
  {
    hide Get, Name;
    var ms := Segment(artifact);
    forall i, j | 0 <= i < j < |ms| ensures Keys(ms)[i] != Keys(ms)[j] { NamesDistinct(FIELDS[i], FIELDS[j]); }
    NamesDistinct(f, f);
    var i :| 0 <= i < |FIELDS| && FIELDS[i] == f;
    GetUnique(ms, i);
  }

  lemma SegmentValid(artifact: seq<Member>)
    requires Valid(Obj(artifact))
    ensures Valid(Obj(Segment(artifact)))
  {
    SegmentGet(artifact, ArtifactType);
    forall i | 0 <= i < |FIELDS| ensures Valid(Segment(artifact)[i].value) { GetAt(artifact, Name(FIELDS[i])); }
    MembersValidFrom(Segment(artifact));
  }

  lemma {:induction false} MembersValidFrom(ms: seq<Member>)
    requires forall i | 0 <= i < |ms| :: Valid(ms[i].value)
    ensures MembersValid(ms)
  {
    if ms != [] {
      MembersValidFrom(ms[1..]);
      assert MemberValid(ms[0]);
    }
  }

  /** What a field contributes; a missing field differs from a null one. */
  function FieldData(artifact: seq<Member>, f: Field): Option<Data> {
    var v := Get(artifact, Name(f));
    if v.Undefined? then None else Some(CanonicalData(v))
  }

  /** Two different texts with the same hash. */
  predicate Collide(sha256Hex: Units -> Units, s: Units, t: Units) { s != t && sha256Hex(s) == sha256Hex(t) }

  lemma SegmentsAgree(a: seq<Member>, b: seq<Member>)
    ensures DenoteMembers(Segment(a), {PROTO}) == DenoteMembers(Segment(b), {PROTO})
       <==> forall f: Field :: FieldData(a, f) == FieldData(b, f)
  {
    hide Get, DenoteMembers, Denote, Segment, Name;
    var x, y := DenoteMembers(Segment(a), {PROTO}), DenoteMembers(Segment(b), {PROTO});
    DenoteAt(Segment(a), {PROTO});
    DenoteAt(Segment(b), {PROTO});
    forall f: Field ensures Get(Segment(a), Name(f)) == Get(a, Name(f)) && Get(Segment(b), Name(f)) == Get(b, Name(f)) && Name(f) != PROTO {
      SegmentGet(a, f);
      SegmentGet(b, f);
      NamesDistinct(f, f);
    }
    if forall f: Field :: FieldData(a, f) == FieldData(b, f) {
      forall k ensures k in x <==> k in y
               ensures k in x && k in y ==> x[k] == y[k] {
        OnlyFields(a, k);
        OnlyFields(b, k);
        if f: Field :| k == Name(f) { assert FieldData(a, f) == FieldData(b, f); }
      }
      assert x == y;
    } else {
      var f: Field :| FieldData(a, f) != FieldData(b, f);
      assert Name(f) in x <==> FieldData(a, f).Some?;
      assert Name(f) in y <==> FieldData(b, f).Some?;
    }
  }

  lemma OnlyFields(artifact: seq<Member>, key: Units)
    ensures Get(Segment(artifact), key).Undefined? || exists f: Field :: key == Name(f)
  {
    GetAt(Segment(artifact), key);
  }

  lemma HashedTextsAgree(a: seq<Member>, b: seq<Member>)
    requires Valid(Obj(a)) && Valid(Obj(b))
    ensures HashedText(a) == HashedText(b) <==> forall f: Field :: FieldData(a, f) == FieldData(b, f)
  {
    hide CanonicalText, Segment, FieldData, Denote;
    var x, y := Obj(Segment(a)), Obj(Segment(b));
    SegmentValid(a);
    SegmentValid(b);
    CanonicalRoundTrip(x);
    CanonicalRoundTrip(y);
    SegmentsAgree(a, b);
    SameTextIffSameData(x, y);
    DataOfObject(Segment(a));
    DataOfObject(Segment(b));
  }

  /** Two artifacts have the same digest exactly when their six attested fields hold the same data, however these are
      laid out, or when their two different texts are a collision of the hash. */
  lemma DigestPinsFields(a: seq<Member>, b: seq<Member>, sha256Hex: Units -> Units)
    requires Valid(Obj(a)) && Valid(Obj(b))
    ensures Digest(a, sha256Hex) == Digest(b, sha256Hex)
       <==> (forall f: Field :: FieldData(a, f) == FieldData(b, f)) || Collide(sha256Hex, HashedText(a), HashedText(b))
  {
    hide HashedText, Ascii, FieldData;
    HashedTextsAgree(a, b);
    var p, s, t := Ascii("sha256:"), sha256Hex(HashedText(a)), sha256Hex(HashedText(b));
    assert (p + s)[|p|..] == s && (p + t)[|p|..] == t;
  }

  lemma DataOfObject(ms: seq<Member>)
    ensures CanonicalData(Obj(ms)) == DObj(DenoteMembers(ms, {PROTO}))
  {
  }
}
