/** The GO/NO-GO summary, said on the gate document, the evidence log and the automation blockers. */
module ProductionMeaning {
  import opened Strings
  import opened Sorting
  import opened Documents
  import opened ProductionReadiness
  import AoGate
  import G = AoGateMeaning
  import M = ManualProofCheck
  import C = Closeout

  // ---------------------------------------------------------------- the gate

  ghost predicate Lists(gate: Json) { Elements(Field(gate, RequiredChecks)) != [] && Elements(Field(gate, CheckList)) != [] }

  ghost predicate IsRequired(gate: Json, id: string) { var values := Elements(Field(gate, RequiredChecks)); G.Requires(values, |values|, id) }

  /** Every required check is there, and the last check with its identifier is closed. */
  ghost predicate GateDone(file: JsonFile) {
    && file.Holds? && Lists(file.value)
    && var checks := Elements(Field(file.value, CheckList));
       forall id | IsRequired(file.value, id) :: !G.IsMissing(checks, id) && !G.IsOpen(checks, id)
  }

  /** Every required check is there, some are not closed. */
  ghost predicate GateWaits(file: JsonFile) {
    && file.Holds? && Lists(file.value)
    && var checks := Elements(Field(file.value, CheckList));
       && (forall id | IsRequired(file.value, id) :: !G.IsMissing(checks, id))
       && (exists id | IsRequired(file.value, id) :: G.IsOpen(checks, id))
  }

  ghost predicate GateSays(gate: Json, b: AoGate.Blocker) {
    if !gate.Obj? then b == AoGate.NotAnObject
    else if Elements(Field(gate, RequiredChecks)) == [] then b == AoGate.NoRequired
    else if Elements(Field(gate, CheckList)) == [] then b == AoGate.NoChecks
    else exists id :: IsRequired(gate, id) && G.BlockerFor(Elements(Field(gate, CheckList)), id, b)
  }

  ghost predicate GateMessage(w: Wording, file: JsonFile, m: string) {
    match file
    case Absent => m == w.gateAbsent || m == w.gate(AoGate.NotAnObject)
    case Unparsable => m == w.gateUnparsable || m == w.gate(AoGate.NotAnObject)
    case Holds(gate) => exists b :: GateSays(gate, b) && m == w.gate(b)
  }

  lemma GateBlockers(gate: Json, b: AoGate.Blocker)
    ensures b in AoGate.GateSummary(gate).blockers <==> GateSays(gate, b)
  {
    hide AoGate.GateSummary, G.BlockerFor, G.Requires, G.IsMissing, G.IsOpen;
    G.SummaryExact(gate);
  }

  lemma GateMessages(w: Wording, file: JsonFile, automation: seq<string>, m: string)
    ensures m in Assess(w, automation, file).aoManualBlockers <==> GateMessage(w, file, m)
  {
    hide AoGate.GateSummary, GateSays;
    var blockers := AoGate.GateSummary(GateValue(file)).blockers;
    forall b ensures b in blockers <==> GateSays(GateValue(file), b) { GateBlockers(GateValue(file), b); }
    NullSays();
    assert m in GateTexts(w, blockers) <==> exists b :: b in blockers && m == w.gate(b) by { TextsIn(w, blockers, m); }
  }

  lemma TextsIn(w: Wording, blockers: seq<AoGate.Blocker>, m: string)
    ensures m in GateTexts(w, blockers) <==> exists b :: b in blockers && m == w.gate(b)
  {
    var texts := GateTexts(w, blockers);
    forall i | 0 <= i < |blockers| ensures texts[i] == w.gate(blockers[i]) && blockers[i] in blockers {}
  }

  lemma NullSays()
    ensures forall b :: GateSays(Null, b) <==> b == AoGate.NotAnObject
  {
  }

  lemma GateStates(w: Wording, file: JsonFile, automation: seq<string>)
    ensures var s := Assess(w, automation, file).aoManual; (s == Complete <==> GateDone(file)) && (s == Pending <==> GateWaits(file))
  {
    hide AoGate.GateSummary, G.BlockerFor, G.Requires, G.IsMissing, G.IsOpen;
    G.SummaryExact(GateValue(file));
  }

  // ---------------------------------------------------------------- the evidence log

  ghost predicate Proves(file: JsonFile, key: string) {
    file.Holds? && file.value.Obj? && M.Provided(Elements(Field(file.value, ManualProofs)), key)
  }

  ghost predicate LogDone(file: JsonFile) {
    Proves(file, "recoveryDrillLink") && Proves(file, "aoFallbackLink") && Proves(file, "rollbackProofLink") && Proves(file, "approvalsLink")
  }

  /** The required proof with this key lacks a link and is listed under this title. */
  ghost predicate Lacks(log: Json, key: string, standard: string, title: string) {
    exists shown: M.Proof :: M.LastShown(Elements(Field(log, ManualProofs)), key, standard, shown) && shown.link == "" && shown.title == title
  }

  ghost predicate LacksAny(log: Json, title: string) {
    || Lacks(log, "recoveryDrillLink", "Recovery drill proof", title) || Lacks(log, "aoFallbackLink", "AO fallback proof", title)
    || Lacks(log, "rollbackProofLink", "Rollback proof", title) || Lacks(log, "approvalsLink", "Approvals / sign-off", title)
  }

  ghost predicate LogMessage(w: Wording, file: JsonFile, m: string) {
    match file
    case Absent => m == w.logAbsent
    case Unparsable => m == w.logUnparsable
    case Holds(log) =>
      if log.Obj? then exists title :: LacksAny(log, title) && m == w.missingLink(title)
      else m == w.logNotObject || exists key :: IsProofKey(key) && m == w.missingLink(key)
  }

  predicate IsProofKey(key: string) { key in ["recoveryDrillLink", "aoFallbackLink", "rollbackProofLink", "approvalsLink"] }

  lemma OneShown(proofs: seq<Json>, key: string, standard: string, a: M.Proof, b: M.Proof)
    requires M.LastShown(proofs, key, standard, a) && M.LastShown(proofs, key, standard, b)
    ensures a.title == b.title && a.link == b.link
  {
    hide M.LastProof, Reads, M.HasKey;
    if exists p :: M.LastProof(proofs, |proofs|, key, p) {
      var p :| M.LastProof(proofs, |proofs|, key, p);
      assert M.LastProof(proofs, |proofs|, key, p) && !(forall i | 0 <= i < |proofs| :: !M.HasKey(proofs[i], key)) by { LastHasKey(proofs, key, p); }
      forall q | M.LastProof(proofs, |proofs|, key, q) ensures q == p { M.OneLastProof(proofs, key, p, q); }
      ReadsOnce(Field(p, Label), a.title, b.title, key);
      ReadsOnce(Field(p, Link), a.link, b.link, "");
    }
  }

  lemma LastHasKey(proofs: seq<Json>, key: string, p: Json)
    requires M.LastProof(proofs, |proofs|, key, p)
    ensures exists i | 0 <= i < |proofs| :: M.HasKey(proofs[i], key)
  {
    hide M.HasKey;
  }

  lemma ReadsOnce(v: Option<Json>, a: string, b: string, fallback: string)
    requires ReadsOr(v, a, fallback) && ReadsOr(v, b, fallback)
    ensures a == b
  {
    hide TextOr;
    ReadsTextOr(v, a, fallback);
    ReadsTextOr(v, b, fallback);
  }

  lemma LackedTitle(log: Json, key: string, standard: string, shown: M.Proof, title: string)
    requires M.LastShown(Elements(Field(log, ManualProofs)), key, standard, shown)
    ensures Lacks(log, key, standard, title) <==> shown.link == "" && shown.title == title
  {
    hide M.LastShown;
    var proofs := Elements(Field(log, ManualProofs));
    forall other: M.Proof | M.LastShown(proofs, key, standard, other) ensures other.title == shown.title && other.link == shown.link {
      OneShown(proofs, key, standard, other, shown);
    }
  }

  lemma MissingTitles(log: Json, title: string)
    requires log.Obj?
    ensures title in M.Assessed(log).missingLabels <==> LacksAny(log, title)
  {
    hide M.Assessed, M.LastShown, M.Provided, Lacks;
    M.AssessedExact(log);
    var shown := M.Assessed(log).proofs;
    LackedTitle(log, "recoveryDrillLink", "Recovery drill proof", shown[0], title);
    LackedTitle(log, "aoFallbackLink", "AO fallback proof", shown[1], title);
    LackedTitle(log, "rollbackProofLink", "Rollback proof", shown[2], title);
    LackedTitle(log, "approvalsLink", "Approvals / sign-off", shown[3], title);
  }

  lemma LinksIn(w: Wording, labels: seq<string>, m: string)
    ensures m in MissingLinks(w, labels) <==> exists t :: t in labels && m == w.missingLink(t)
  {
    forall i | 0 <= i < |labels| ensures MissingLinks(w, labels)[i] == w.missingLink(labels[i]) && labels[i] in labels {}
  }

  lemma LogMessages(w: Wording, file: JsonFile, m: string)
    ensures m in ReadProofs(w, file).blockers <==> LogMessage(w, file, m)
  {
    hide MissingLinks, LacksAny, IsProofKey;
    if file.Holds? {
      var log := file.value;
      LinksIn(w, M.Assessed(log).missingLabels, m);
      if log.Obj? {
        hide M.Assessed;
        NotBlocked(log);
        forall t ensures t in M.Assessed(log).missingLabels <==> LacksAny(log, t) { MissingTitles(log, t); }
      } else {
        forall t ensures t in M.Assessed(log).missingLabels <==> IsProofKey(t) { AllKeys(log, t); }
      }
    }
  }

  lemma NotBlocked(log: Json)
    requires log.Obj?
    ensures !M.Assessed(log).blocked
  {
    hide M.Count, M.ByKey;
  }

  lemma NotAnObject(log: Json)
    requires !log.Obj?
    ensures M.Assessed(log).blocked
  {
  }

  lemma AllKeys(log: Json, t: string)
    requires !log.Obj?
    ensures t in M.Assessed(log).missingLabels <==> IsProofKey(t)
  {
    var keys := M.RequiredKeys();
    assert keys == ["recoveryDrillLink", "aoFallbackLink", "rollbackProofLink", "approvalsLink"];
  }

  lemma LogStates(w: Wording, file: JsonFile)
    ensures ProofState(ReadProofs(w, file)) == Complete <==> LogDone(file)
    ensures ProofState(ReadProofs(w, file)) != Pending
  {
    hide M.Assessed, M.Provided, M.LastShown, M.Filled;
    if file.Holds? {
      M.AssessmentConsistent(file.value);
      if file.value.Obj? { M.AssessedExact(file.value); } else { NotAnObject(file.value); }
    }
  }

  // ---------------------------------------------------------------- the verdict

  ghost predicate Message(w: Wording, automation: seq<string>, gateFile: JsonFile, logFile: JsonFile, m: string) {
    m in automation || GateMessage(w, gateFile, m) || LogMessage(w, logFile, m)
  }

  lemma DistinctIn(w: Wording, values: seq<string>, t: string)
    ensures t in Distinct(Rewritten(w, values)) <==> t != "" && exists m :: m in values && Trim(w.actionable(m)) == t
  {
    hide Trim;
    var rewritten := Rewritten(w, values);
    UniqueAre(rewritten, |rewritten|);
    forall i | 0 <= i < |values| ensures rewritten[i] == w.actionable(values[i]) && values[i] in values {}
  }

  lemma TrimmedIn(values: seq<string>, t: string)
    requires forall v | v in values :: Trim(v) == v && v != ""
    ensures t in Distinct(values) <==> t in values
  {
    hide Trim;
    UniqueAre(values, |values|);
    forall i | 0 <= i < |values| ensures values[i] in values {}
  }

  lemma DistinctTrimmed(w: Wording, values: seq<string>, v: string)
    requires v in Distinct(Rewritten(w, values))
    ensures Trim(v) == v && v != ""
  {
    hide Trim;
    DistinctIn(w, values, v);
    var m :| m in values && Trim(w.actionable(m)) == v;
    TrimIdempotent(w.actionable(m));
  }

  /** The texts of the summary's blocker list. */
  ghost predicate Instructs(w: Wording, automation: seq<string>, gateFile: JsonFile, logFile: JsonFile, t: string) {
    t != "" && exists m :: Message(w, automation, gateFile, logFile, m) && Trim(w.actionable(m)) == t
  }

  lemma BlockersInstruct(w: Wording, automation: seq<string>, gateFile: JsonFile, logFile: JsonFile, t: string)
    ensures t in Summarize(w, Assess(w, automation, gateFile), logFile).blockers <==> Instructs(w, automation, gateFile, logFile, t)
  {
    hide Assess, ReadProofs, Rewritten, Distinct, Trim, GateMessage, LogMessage;
    var r, proofs := Assess(w, automation, gateFile), ReadProofs(w, logFile);
    AutomationList(w, automation, gateFile);
    var a, b, c := Distinct(Rewritten(w, automation)), Distinct(Rewritten(w, r.aoManualBlockers)), Distinct(Rewritten(w, proofs.blockers));
    forall v | v in a + b + c ensures Trim(v) == v && v != "" {
      if v in a { DistinctTrimmed(w, automation, v); }
      else if v in b { DistinctTrimmed(w, r.aoManualBlockers, v); }
      else { DistinctTrimmed(w, proofs.blockers, v); }
    }
    TrimmedIn(a + b + c, t);
    DistinctIn(w, automation, t);
    DistinctIn(w, r.aoManualBlockers, t);
    DistinctIn(w, proofs.blockers, t);
    forall m ensures m in r.aoManualBlockers <==> GateMessage(w, gateFile, m) { GateMessages(w, gateFile, automation, m); }
    forall m ensures m in proofs.blockers <==> LogMessage(w, logFile, m) { LogMessages(w, logFile, m); }
  }

  /** The closeout state and the blocker list of the summary, for all its inputs. */
  lemma SummaryExact(w: Wording, automation: seq<string>, gateFile: JsonFile, logFile: JsonFile)
    ensures var s := Summarize(w, Assess(w, automation, gateFile), logFile);
      && (s.go <==> automation == [] && GateDone(gateFile) && LogDone(logFile))
      && s.closeout == (if automation != [] then C.AutomationBlocked
                        else if GateDone(gateFile) && LogDone(logFile) then C.CloseState.Ready
                        else if GateWaits(gateFile) && LogDone(logFile) then C.AoManualPending
                        else C.AoManualBlocked)
      && NoDuplicates(s.blockers) && forall t :: t in s.blockers <==> Instructs(w, automation, gateFile, logFile, t)
  {
    hide Assess, ReadProofs, Rewritten, Unique, ProofState, GateDone, GateWaits, LogDone, Instructs;
    var r := Assess(w, automation, gateFile);
    GateStates(w, gateFile, automation);
    LogStates(w, logFile);
    AutomationState(w, automation, gateFile);
    var s := Summarize(w, r, logFile);
    var all := s.automationBlockers + s.aoManualBlockers + s.proofBlockers;
    UniqueAre(all, |all|);
    forall t ensures t in s.blockers <==> Instructs(w, automation, gateFile, logFile, t) { BlockersInstruct(w, automation, gateFile, logFile, t); }
  }

  lemma AutomationState(w: Wording, automation: seq<string>, gateFile: JsonFile)
    ensures Assess(w, automation, gateFile).automation == Complete <==> automation == []
  {
    hide AoGate.GateSummary;
  }
}
