/** The check of the manual proof links in a decommission evidence log. */
module ManualProofCheck {
  import opened Numbers
  import opened Strings
  import opened Documents

  datatype RequiredProof = RecoveryDrill | AoFallback | RollbackProof | Approvals

  function KeyText(r: RequiredProof): string {
    match r
    case RecoveryDrill => "recoveryDrillLink"
    case AoFallback => "aoFallbackLink"
    case RollbackProof => "rollbackProofLink"
    case Approvals => "approvalsLink"
  }

  function LabelText(r: RequiredProof): string {
    match r
    case RecoveryDrill => "Recovery drill proof"
    case AoFallback => "AO fallback proof"
    case RollbackProof => "Rollback proof"
    case Approvals => "Approvals / sign-off"
  }

  function Definitions(): (r: seq<RequiredProof>)
    ensures |r| == 4
  {
    [RecoveryDrill, AoFallback, RollbackProof, Approvals]
  }

  datatype Proof = Proof(key: string, title: string, link: string)

  function OrElse(text: string, fallback: string): string { if text == "" then fallback else text }

  function ReadProof(p: Json): Proof {
    var key := TextOr(Field(p, ProofKey));
    Proof(key, OrElse(TextOr(Field(p, Label)), key), TextOr(Field(p, Link)))
  }

  /** The proofs of the log by key; of several with one key the last counts. */
  function ByKey(proofs: seq<Json>, n: nat): map<string, Proof>
    requires n <= |proofs|
  {
    if n == 0 then map[]
    else
      var byKey, key := ByKey(proofs, n - 1), ReadProof(proofs[n - 1]).key;
      if key == "" then byKey else byKey[key := ReadProof(proofs[n - 1])]
  }

  function ProofFor(byKey: map<string, Proof>, r: RequiredProof): Proof {
    if KeyText(r) in byKey then byKey[KeyText(r)] else Proof(KeyText(r), LabelText(r), "")
  }

  datatype ProofState = Complete | Pending | Blocked
  datatype Tally = Tally(provided: nat, missingKeys: seq<string>, missingLabels: seq<string>, proofs: seq<Proof>)
  datatype Assessment = Assessment(state: ProofState, providedCount: nat, missingKeys: seq<string>, missingLabels: seq<string>,
                                   blocked: bool, proofs: seq<Proof>)

  function Count(byKey: map<string, Proof>, definitions: seq<RequiredProof>, n: nat): (t: Tally)
    requires n <= |definitions|
    ensures t.provided + |t.missingKeys| == n
  {
    if n == 0 then Tally(0, [], [], [])
    else
      var t, p := Count(byKey, definitions, n - 1), ProofFor(byKey, definitions[n - 1]);
      if p.link != "" then t.(provided := t.provided + 1, proofs := t.proofs + [p])
      else t.(missingKeys := t.missingKeys + [KeyText(definitions[n - 1])], missingLabels := t.missingLabels + [p.title],
              proofs := t.proofs + [p])
  }

  function RequiredKeys(): seq<string> { seq(4, i requires 0 <= i < 4 => KeyText(Definitions()[i])) }

  /** Every required proof is counted once. */
  predicate Counted(a: Assessment) { a.providedCount + |a.missingKeys| == 4 }

  function Assessed(log: Json): (a: Assessment)
    ensures Counted(a)
  {
    if !log.Obj? then Assessment(Blocked, 0, RequiredKeys(), RequiredKeys(), true, [])
    else
      var proofs := Elements(Field(log, ManualProofs));
      var t := Count(ByKey(proofs, |proofs|), Definitions(), 4);
      Assessment(if t.missingKeys == [] then Complete else Pending, t.provided, t.missingKeys, t.missingLabels, false, t.proofs)
  }

  method AssessManualProofs(log: Json) returns (r: Assessment)
    ensures r == Assessed(log)
  {
    hide KeyText, LabelText, ReadProof;
    if !log.Obj? { return Assessment(Blocked, 0, RequiredKeys(), RequiredKeys(), true, []); }
    var proofs := Elements(Field(log, ManualProofs));
    var byKey: map<string, Proof> := map[];
    for i := 0 to |proofs|
      invariant byKey == ByKey(proofs, i)
    {
      var proof := ReadProof(proofs[i]);
      if proof.key != "" { byKey := byKey[proof.key := proof]; }
    }
    var t := CountProofs(byKey);
    r := Assessment(if t.missingKeys == [] then Complete else Pending, t.provided, t.missingKeys, t.missingLabels, false, t.proofs);
  }

  method CountProofs(byKey: map<string, Proof>) returns (t: Tally)
    ensures t == Count(byKey, Definitions(), 4)
  {
    hide KeyText, ProofFor, Definitions;
    var definitions := Definitions();
    var providedCount: nat := 0;
    var missingKeys: seq<string>, missingLabels: seq<string>, normalized: seq<Proof> := [], [], [];
    for i := 0 to 4
      invariant Tally(providedCount, missingKeys, missingLabels, normalized) == Count(byKey, definitions, i)
    {
      var proof := ProofFor(byKey, definitions[i]);
      if proof.link != "" {
        providedCount := providedCount + 1;
      } else {
        missingKeys := missingKeys + [KeyText(definitions[i])];
        missingLabels := missingLabels + [proof.title];
      }
      normalized := normalized + [proof];
    }
    t := Tally(providedCount, missingKeys, missingLabels, normalized);
  }

  // ---------------------------------------------------------------- what the assessment says

  predicate Filled(text: string) { text != "" && Trim(text) == text }

  lemma ConstantTexts(r: RequiredProof)
    ensures Filled(KeyText(r)) && Filled(LabelText(r))
  {
    hide Trim;
    KeyEnds(r);
    LabelEnds(r);
    TrimKeeps(KeyText(r));
    TrimKeeps(LabelText(r));
  }

  lemma KeyEnds(r: RequiredProof)
    ensures var s := KeyText(r); s != "" && !IsSpace(s[0]) && !IsSpace(s[|s| - 1])
  {
  }

  lemma LabelEnds(r: RequiredProof)
    ensures var s := LabelText(r); s != "" && !IsSpace(s[0]) && !IsSpace(s[|s| - 1])
  {
  }

  ghost predicate WellKept(byKey: map<string, Proof>) {
    forall k | k in byKey :: Filled(byKey[k].key) && Filled(byKey[k].title) && (byKey[k].link == "" || Filled(byKey[k].link))
  }

  lemma {:induction false} ByKeyWellKept(proofs: seq<Json>, n: nat)
    requires n <= |proofs|
    ensures WellKept(ByKey(proofs, n))
  {
    hide Filled, ReadProof;
    if n > 0 {
      ByKeyWellKept(proofs, n - 1);
      if ReadProof(proofs[n - 1]).key != "" { ReadProofFilled(proofs[n - 1]); }
    }
  }

  lemma ReadProofFilled(p: Json)
    requires ReadProof(p).key != ""
    ensures var q := ReadProof(p); Filled(q.key) && Filled(q.title) && (q.link == "" || Filled(q.link))
  {
    hide Trim;
    TextOrTrimmed(Field(p, ProofKey));
    TextOrTrimmed(Field(p, Label));
    TextOrTrimmed(Field(p, Link));
  }

  ghost predicate AllProvided(byKey: map<string, Proof>, definitions: seq<RequiredProof>, n: nat)
    requires n <= |definitions|
  {
    forall k | 0 <= k < n :: ProofFor(byKey, definitions[k]).link != ""
  }

  lemma ProofForFilled(byKey: map<string, Proof>, r: RequiredProof)
    requires WellKept(byKey)
    ensures var p := ProofFor(byKey, r); Filled(p.key) && Filled(p.title) && (p.link == "" || Filled(p.link))
  {
    hide KeyText, LabelText, Filled;
    ConstantTexts(r);
  }

  lemma {:induction false} CountShows(byKey: map<string, Proof>, definitions: seq<RequiredProof>, n: nat)
    requires n <= |definitions|
    ensures var t := Count(byKey, definitions, n); |t.proofs| == n && forall k | 0 <= k < n :: t.proofs[k] == ProofFor(byKey, definitions[k])
  {
    hide KeyText, ProofFor;
    if n > 0 { CountShows(byKey, definitions, n - 1); }
  }

  lemma {:induction false} CountMissing(byKey: map<string, Proof>, definitions: seq<RequiredProof>, n: nat)
    requires n <= |definitions| && forall k | 0 <= k < n :: Filled(ProofFor(byKey, definitions[k]).title)
    ensures var t := Count(byKey, definitions, n);
      && |t.missingLabels| == |t.missingKeys| && (t.missingKeys == [] <==> AllProvided(byKey, definitions, n))
      && (forall k | 0 <= k < |t.missingLabels| :: Filled(t.missingLabels[k]))
  {
    hide KeyText, ProofFor, Filled;
    if n > 0 { CountMissing(byKey, definitions, n - 1); }
  }

  lemma CountExact(byKey: map<string, Proof>, definitions: seq<RequiredProof>, n: nat)
    requires n <= |definitions| && WellKept(byKey)
    ensures var t := Count(byKey, definitions, n);
      && t.provided + |t.missingKeys| == n && |t.missingLabels| == |t.missingKeys|
      && (t.missingKeys == [] <==> AllProvided(byKey, definitions, n))
      && |t.proofs| == n && (forall k | 0 <= k < n :: t.proofs[k] == ProofFor(byKey, definitions[k]) && Filled(t.proofs[k].key) && Filled(t.proofs[k].title))
      && (forall k | 0 <= k < n :: t.proofs[k].link == "" || Filled(t.proofs[k].link))
      && (forall k | 0 <= k < |t.missingLabels| :: Filled(t.missingLabels[k]))
  {
    hide Count, Filled, WellKept, ProofFor, AllProvided;
    forall k | 0 <= k < n ensures var p := ProofFor(byKey, definitions[k]); Filled(p.key) && Filled(p.title) && (p.link == "" || Filled(p.link)) {
      ProofForFilled(byKey, definitions[k]);
    }
    CountShows(byKey, definitions, n);
    CountMissing(byKey, definitions, n);
  }

  /** The assessment is consistent for every log: each required proof is provided or missing, the log is complete exactly
      when nothing is missing, every missing proof has a label, and a complete log shows all four links. */
  lemma AssessmentConsistent(log: Json)
    ensures var a := Assessed(log);
      && a.providedCount + |a.missingKeys| == 4 && |a.missingLabels| == |a.missingKeys|
      && (a.state == Complete <==> a.missingLabels == [])
      && (a.state == Blocked <==> a.blocked)
      && (forall k | 0 <= k < |a.missingLabels| :: Filled(a.missingLabels[k]))
      && (forall k | 0 <= k < |a.proofs| :: Filled(a.proofs[k].key) && Filled(a.proofs[k].title))
      && (a.state == Complete ==> |a.proofs| == 4 && forall k | 0 <= k < 4 :: Filled(a.proofs[k].link))
      && (a.state == Pending ==> exists k | 0 <= k < |a.proofs| :: a.proofs[k].link == "")
  {
    hide Filled, KeyText, ProofFor, Definitions;
    if log.Obj? {
      var proofs := Elements(Field(log, ManualProofs));
      ByKeyWellKept(proofs, |proofs|);
      CountExact(ByKey(proofs, |proofs|), Definitions(), 4);
    } else {
      forall k | 0 <= k < 4 ensures Filled(RequiredKeys()[k]) { ConstantTexts(Definitions()[k]); }
    }
  }

  // ---------------------------------------------------------------- the assessment on the values of the log

  /** The last proof of the log with the key. */
  ghost predicate LastProof(proofs: seq<Json>, n: nat, key: string, p: Json)
    requires n <= |proofs|
  {
    exists i | 0 <= i < n :: proofs[i] == p && HasKey(proofs[i], key) && forall k | i < k < n :: !HasKey(proofs[k], key)
  }

  ghost predicate HasKey(p: Json, key: string) { Reads(Field(p, ProofKey), key) }

  ghost predicate LastShown(proofs: seq<Json>, key: string, title: string, shown: Proof) {
    || (exists p :: LastProof(proofs, |proofs|, key, p) && ReadsOr(Field(p, Label), shown.title, key) && ReadsOr(Field(p, Link), shown.link, ""))
    || ((forall i | 0 <= i < |proofs| :: !HasKey(proofs[i], key)) && shown.title == title && shown.link == "")
  }

  /** A required proof is provided when the last proof with its key has a link. */
  ghost predicate Provided(proofs: seq<Json>, key: string) {
    exists p :: LastProof(proofs, |proofs|, key, p) && exists t :: Reads(Field(p, Link), t)
  }

  lemma {:induction false} LastByKey(proofs: seq<Json>, n: nat, key: string)
    requires n <= |proofs| && key != ""
    ensures key !in ByKey(proofs, n) ==> forall i | 0 <= i < n :: !HasKey(proofs[i], key)
    ensures key in ByKey(proofs, n) ==> exists p :: LastProof(proofs, n, key, p) && ByKey(proofs, n)[key] == ReadProof(p)
  {
    hide HasKey, ReadProof, LastProof;
    if n > 0 {
      LastByKey(proofs, n - 1, key);
      KeyRead(proofs[n - 1], key);
      if ReadProof(proofs[n - 1]).key == key {
        LastHere(proofs, n, key);
      } else if key in ByKey(proofs, n - 1) {
        var p :| LastProof(proofs, n - 1, key, p) && ByKey(proofs, n - 1)[key] == ReadProof(p);
        LastBefore(proofs, n, key, p);
      }
    }
  }

  lemma LastHere(proofs: seq<Json>, n: nat, key: string)
    requires 0 < n <= |proofs| && HasKey(proofs[n - 1], key)
    ensures LastProof(proofs, n, key, proofs[n - 1])
  {
    hide HasKey;
  }

  lemma LastBefore(proofs: seq<Json>, n: nat, key: string, p: Json)
    requires 0 < n <= |proofs| && !HasKey(proofs[n - 1], key) && LastProof(proofs, n - 1, key, p)
    ensures LastProof(proofs, n, key, p)
  {
    hide HasKey;
  }

  lemma KeyRead(p: Json, key: string)
    requires key != ""
    ensures HasKey(p, key) <==> ReadProof(p).key == key
  {
    hide TextOr;
    ReadsText(Field(p, ProofKey), key);
  }

  lemma OneLastProof(proofs: seq<Json>, key: string, p: Json, q: Json)
    requires LastProof(proofs, |proofs|, key, p) && LastProof(proofs, |proofs|, key, q)
    ensures p == q
  {
    hide HasKey;
  }

  lemma ProofShown(proofs: seq<Json>, r: RequiredProof)
    ensures var shown := ProofFor(ByKey(proofs, |proofs|), r);
      && shown.key == KeyText(r) && LastShown(proofs, KeyText(r), LabelText(r), shown)
      && (shown.link != "" <==> Provided(proofs, KeyText(r)))
  {
    hide HasKey, KeyText, LabelText, ByKey, TextOr;
    var key, byKey := KeyText(r), ByKey(proofs, |proofs|);
    KeyEnds(r);
    LastByKey(proofs, |proofs|, key);
    if key in byKey {
      var p :| LastProof(proofs, |proofs|, key, p) && byKey[key] == ReadProof(p);
      KeyRead(p, key);
      ReadsTextOr(Field(p, Label), byKey[key].title, key);
      ReadsTextOr(Field(p, Link), byKey[key].link, "");
      LinkProvided(proofs, key, p);
    } else {
      NoneProvided(proofs, key);
    }
  }

  lemma LinkProvided(proofs: seq<Json>, key: string, p: Json)
    requires LastProof(proofs, |proofs|, key, p)
    ensures TextOr(Field(p, Link)) != "" <==> Provided(proofs, key)
  {
    hide TextOr, Reads, LastProof;
    var link := TextOr(Field(p, Link));
    ReadsText(Field(p, Link), link);
    if Provided(proofs, key) {
      var q :| LastProof(proofs, |proofs|, key, q) && exists t :: Reads(Field(q, Link), t);
      OneLastProof(proofs, key, p, q);
      var t :| Reads(Field(q, Link), t);
      ReadsText(Field(p, Link), t);
    }
  }

  lemma NoneProvided(proofs: seq<Json>, key: string)
    requires forall i | 0 <= i < |proofs| :: !HasKey(proofs[i], key)
    ensures !Provided(proofs, key)
  {
    hide HasKey;
  }

  function Only(holds: bool, text: string): seq<string> { if holds then [text] else [] }

  /** The check of any log: which of the four proofs are missing, in this order, and what is shown for each. */
  lemma AssessedExact(log: Json)
    requires log.Obj?
    ensures var a, proofs := Assessed(log), Elements(Field(log, ManualProofs));
      && a.missingKeys == Only(!Provided(proofs, "recoveryDrillLink"), "recoveryDrillLink") + Only(!Provided(proofs, "aoFallbackLink"), "aoFallbackLink")
                          + Only(!Provided(proofs, "rollbackProofLink"), "rollbackProofLink") + Only(!Provided(proofs, "approvalsLink"), "approvalsLink")
      && a.providedCount == 4 - |a.missingKeys| && a.state == (if a.missingKeys == [] then Complete else Pending) && !a.blocked
      && |a.proofs| == 4 && (forall k | 0 <= k < 4 :: a.proofs[k].key == ["recoveryDrillLink", "aoFallbackLink", "rollbackProofLink", "approvalsLink"][k])
      && LastShown(proofs, "recoveryDrillLink", "Recovery drill proof", a.proofs[0])
      && LastShown(proofs, "aoFallbackLink", "AO fallback proof", a.proofs[1])
      && LastShown(proofs, "rollbackProofLink", "Rollback proof", a.proofs[2])
      && LastShown(proofs, "approvalsLink", "Approvals / sign-off", a.proofs[3])
      && a.missingLabels == Only(a.proofs[0].link == "", a.proofs[0].title) + Only(a.proofs[1].link == "", a.proofs[1].title)
                            + Only(a.proofs[2].link == "", a.proofs[2].title) + Only(a.proofs[3].link == "", a.proofs[3].title)
  {
    hide ByKey, LastShown, Provided, ProofFor, Only, Count;
    var proofs := Elements(Field(log, ManualProofs));
    ProofShown(proofs, RecoveryDrill);
    ProofShown(proofs, AoFallback);
    ProofShown(proofs, RollbackProof);
    ProofShown(proofs, Approvals);
    FourProofs(ByKey(proofs, |proofs|));
    FourKeys(ByKey(proofs, |proofs|));
    FourLabels(ByKey(proofs, |proofs|));
  }

  lemma FourProofs(byKey: map<string, Proof>)
    ensures var t, p, q, r, s := Count(byKey, Definitions(), 4), ProofFor(byKey, RecoveryDrill), ProofFor(byKey, AoFallback),
              ProofFor(byKey, RollbackProof), ProofFor(byKey, Approvals);
      t.proofs == [p, q, r, s]
  {
    hide ProofFor, KeyText, Count, Only;
    CountNext(byKey, Definitions(), 1);
    CountNext(byKey, Definitions(), 2);
    CountNext(byKey, Definitions(), 3);
    CountNext(byKey, Definitions(), 4);
  }

  lemma FourKeys(byKey: map<string, Proof>)
    ensures var t, p, q, r, s := Count(byKey, Definitions(), 4), ProofFor(byKey, RecoveryDrill), ProofFor(byKey, AoFallback),
              ProofFor(byKey, RollbackProof), ProofFor(byKey, Approvals);
      t.missingKeys == Only(p.link == "", KeyText(RecoveryDrill)) + Only(q.link == "", KeyText(AoFallback))
                       + Only(r.link == "", KeyText(RollbackProof)) + Only(s.link == "", KeyText(Approvals))
  {
    hide ProofFor, KeyText, Count, Only;
    CountNext(byKey, Definitions(), 1);
    CountNext(byKey, Definitions(), 2);
    CountNext(byKey, Definitions(), 3);
    CountNext(byKey, Definitions(), 4);
  }

  lemma FourLabels(byKey: map<string, Proof>)
    ensures var t, p, q, r, s := Count(byKey, Definitions(), 4), ProofFor(byKey, RecoveryDrill), ProofFor(byKey, AoFallback),
              ProofFor(byKey, RollbackProof), ProofFor(byKey, Approvals);
      t.missingLabels == Only(p.link == "", p.title) + Only(q.link == "", q.title) + Only(r.link == "", r.title) + Only(s.link == "", s.title)
  {
    hide ProofFor, KeyText, Count, Only;
    CountNext(byKey, Definitions(), 1);
    CountNext(byKey, Definitions(), 2);
    CountNext(byKey, Definitions(), 3);
    CountNext(byKey, Definitions(), 4);
  }

  lemma CountNext(byKey: map<string, Proof>, definitions: seq<RequiredProof>, n: nat)
    requires 0 < n <= |definitions|
    ensures var before, after, p := Count(byKey, definitions, n - 1), Count(byKey, definitions, n), ProofFor(byKey, definitions[n - 1]);
      && (n == 1 ==> before == Tally(0, [], [], []))
      && after.proofs == before.proofs + [p]
      && after.missingKeys == before.missingKeys + Only(p.link == "", KeyText(definitions[n - 1]))
      && after.missingLabels == before.missingLabels + Only(p.link == "", p.title)
  {
    hide ProofFor, KeyText;
  }

  // ---------------------------------------------------------------- the printed assessment

  function StateText(s: ProofState): string {
    match s
    case Complete => "complete"
    case Pending => "pending"
    case Blocked => "blocked"
  }

  function Texts(items: seq<string>): (r: Json)
    ensures r.Arr? && |r.elems| == |items| && forall i | 0 <= i < |items| :: r.elems[i] == Str(items[i])
  {
    Arr(seq(|items|, i requires 0 <= i < |items| => Str(items[i])))
  }

  function ProofDocument(p: Proof): Json { Obj(map[ProofKey := Str(p.key), Label := Str(p.title), Link := Str(p.link)]) }

  function ProofDocuments(proofs: seq<Proof>): (r: Json)
    ensures r.Arr? && |r.elems| == |proofs| && forall i | 0 <= i < |proofs| :: r.elems[i] == ProofDocument(proofs[i])
  {
    Arr(seq(|proofs|, i requires 0 <= i < |proofs| => ProofDocument(proofs[i])))
  }

  /** What the script prints with `--json`; `blockerText` and `warningText` are its two messages. */
  function AssessmentDocument(a: Assessment, strict: bool, file: string, blockerText: string, warningText: string): Json
    requires Counted(a)
  {
    Obj(map[Status := Str(StateText(a.state)), RequiredCount := Whole(4), ProvidedCount := Whole(a.providedCount),
            MissingCount := Whole(|a.missingKeys|), MissingProofKeys := Texts(a.missingKeys),
            MissingProofLabels := Texts(a.missingLabels), Blockers := Texts(if a.blocked then [blockerText] else []),
            Warnings := Texts(if a.state == Pending then [warningText] else []), Proofs := ProofDocuments(a.proofs),
            Strict := Bool(strict), File := Str(file)])
  }
}
