/** The JSON documents the operator scripts exchange, as the scripts see them after `JSON.parse`. */
module Documents {
  import opened Numbers
  import opened Strings

  /** Property names: the ones the scripts look at, array indices, and the rest, numbered in some fixed order; so every
      name is one key. (`required`, `checks`, `key`, `result` and `prefix` are called `RequiredChecks`, `CheckList`,
      `ProofKey`, `ResultKey` and `RoutePrefix` here.) */
  datatype Key =
    | Release | Status | CreatedAt | DrillDir | Artifacts | Path | SizeBytes | Sha256 | Profile | Mode | Strict | Ok
    | BundleDir | Configured | RequiredSites | LegacyCoreExtractionEvidence | LegacyCryptoBoundaryEvidence
    | TemplateWorkerMapCoherence | ForgetForwardConfig | TemplateSignatureRefMap | TemplateVariantMap | Id
    | UpdatedAt | RequiredChecks | CheckList | Evidence | EvidenceRefs | Label | Link | ProofKey | Proofs
    | ManualProofs | RequiredCount | ProvidedCount | MissingCount | MissingProofKeys | MissingProofLabels
    | Validations | Steps | ExitCode | Issues | Message | Severity | OverallStatus | PackReady | ReadinessReady
    | DrillCheckOk | ManifestValidated | AoGateValidated | ResultKey | CloseoutReady | CloseoutState
    | AutomationState | AoManualState | Blockers | AutomationBlockers | AoManualBlockers | Warnings | SignoffRecord
    | FinalMigrationSummary | File | RoutePrefix | P95Rps | BlockedRate | BurstFactor
    | Index(n: nat)
    | Other(n: nat)

  /** Every JSON value is one `Json` value: numbers and property names have one form each. */
  datatype Json = Null | Bool(b: bool) | Num(n: Number) | Str(s: string) | Arr(elems: seq<Json>) | Obj(fields: map<Key, Json>)

  /** `value[key]` for a named key; `None` is `undefined`. */
  function Field(value: Json, key: Key): Option<Json> {
    if value.Obj? && key in value.fields then Some(value.fields[key]) else None
  }

  function Whole(n: Safe): Json { Num(Ratio(n, 1)) }

  predicate IsInteger(value: Json) { value.Num? && value.n.units % value.n.parts == 0 }
  predicate IsIntegerLike(value: Json) { IsInteger(value) && value.n.units >= 0 }

  predicate IsArray(value: Option<Json>) { value.Some? && value.value.Arr? }

  /** The elements of an array; none when it is not one. */
  function Elements(value: Option<Json>): seq<Json> { if IsArray(value) then value.value.elems else [] }

  predicate Truthy(value: Json) {
    match value
    case Null => false
    case Bool(b) => b
    case Num(n) => n.units != 0
    case Str(s) => s != ""
    case _ => true
  }

  /** `isNonEmptyString(value)` */
  predicate IsText(value: Option<Json>) { value.Some? && value.value.Str? && NonBlank(value.value.s) }

  /** `isNonEmptyString(value) ? value.trim() : ''` */
  function TextOr(value: Option<Json>): (t: string)
    ensures t != "" <==> IsText(value)
  {
    if IsText(value) then Trim(value.value.s) else ""
  }

  /** The value is a text that reads `t` without its outer white space, and `t` is not empty. */
  ghost predicate Reads(value: Option<Json>, t: string) { t != "" && value.Some? && value.value.Str? && Trim(value.value.s) == t }

  ghost predicate ReadsOr(value: Option<Json>, t: string, fallback: string) {
    Reads(value, t) || (t == fallback && forall u :: !Reads(value, u))
  }

  lemma ReadsText(value: Option<Json>, t: string)
    ensures Reads(value, t) <==> t != "" && TextOr(value) == t
  {
  }

  lemma ReadsTextOr(value: Option<Json>, t: string, fallback: string)
    ensures ReadsOr(value, t, fallback) <==> t == if TextOr(value) == "" then fallback else TextOr(value)
  {
    hide TextOr, Reads;
    ReadsText(value, t);
    ReadsText(value, TextOr(value));
    forall u ensures Reads(value, u) <==> u != "" && TextOr(value) == u { ReadsText(value, u); }
  }

  /** Trimming twice is trimming once. */
  lemma TextOrTrimmed(value: Option<Json>)
    ensures Trim(TextOr(value)) == TextOr(value)
  {
    if IsText(value) { TrimIdempotent(value.value.s); }
  }

  lemma PlainWord(s: string)
    requires s != "" && !IsSpace(s[0]) && !IsSpace(s[|s| - 1])
    ensures IsText(Some(Str(s))) && TextOr(Some(Str(s))) == s
  {
    hide Trim;
    TrimKeeps(s);
  }

  /** The own enumerable properties of a value, which `{ ...value }` copies. */
  function Fields(value: Json): map<Key, Json> {
    match value
    case Obj(m) => m
    case Arr(es) => map i | 0 <= i < |es| :: Index(i) := es[i]
    case Str(s) => map i | 0 <= i < |s| :: Index(i) := Str([s[i]])
    case _ => map[]
  }

  /** The parts of the platform the scripts rely on. */
  datatype World = World(parse: string -> Option<Json>, stringify: Json -> string,
                         sha256Hex: string -> string, byteLength: string -> Size)

  predicate IsLowerHex(c: char) { IsDigit(c) || 'a' <= c <= 'f' }
  predicate IsHex(c: char) { IsLowerHex(c) || 'A' <= c <= 'F' }

  /** A digest is 64 lower-case hex digits. */
  ghost predicate HexDigests(w: World) {
    forall t :: |w.sha256Hex(t)| == 64 && forall i | 0 <= i < 64 :: IsLowerHex(w.sha256Hex(t)[i])
  }

  /** Parsing undoes printing, and a printed document is not empty. */
  ghost predicate Sound(w: World) {
    && (forall j :: w.parse(w.stringify(j)) == Some(j))
    && (forall j :: w.stringify(j) != "")
    && HexDigests(w)
  }
}
