/** The strings whose SHA-256 digests serve as identities: length-prefixed fields in the responder components
    (src/LocalGooseDialogueResponder.cpp, src/LocalGooseDialogueResponderAuthority.cpp), lines in the stimulus store
    and the continuity observation (src/LocalGooseCycleStimulusStore.cpp, src/LocalContinuityObservation.cpp). */
module IdentityPreimages {
  import opened Base
  import opened Decimal

  // --- Length-prefixed fields ---------------------------------------------------------------------------------

  datatype Field = Text(text: string) | Number(value: U64)

  function EncodeField(f: Field): string {
    match f
    case Text(s) => Dec(|s|) + ":" + s + "|"
    case Number(n) => Dec(n) + "|"
  }

  function Encode(fields: seq<Field>): string {
    if fields == [] then "" else EncodeField(fields[0]) + Encode(fields[1..])
  }

  lemma {:induction false} EncodeAppend(fields: seq<Field>, f: Field)
    ensures Encode(fields + [f]) == Encode(fields) + EncodeField(f)
  {
    hide EncodeField;
    if fields == [] {
      assert [f][1..] == [];
    } else {
      assert (fields + [f])[1..] == fields[1..] + [f];
      EncodeAppend(fields[1..], f);
    }
  }

  /** How far the characters of a string satisfy a property. */
  function Span(s: string, p: char -> bool): (n: nat)
    ensures n <= |s|
  {
    if s == "" || !p(s[0]) then 0 else 1 + Span(s[1..], p)
  }

  lemma {:induction false} SpanStops(a: string, x: string, p: char -> bool)
    requires forall i :: 0 <= i < |a| ==> p(a[i])
    requires x == "" || !p(x[0])
    ensures Span(a + x, p) == |a|
  {
    if a == "" {
      assert a + x == x;
    } else {
      assert (a + x)[1..] == a[1..] + x && (a + x)[0] == a[0];
      SpanStops(a[1..], x, p);
    }
  }

  /** A run of characters with a property can be read back from what follows it. */
  lemma RunIsReadBack(a: string, x: string, b: string, y: string, p: char -> bool)
    requires forall i :: 0 <= i < |a| ==> p(a[i])
    requires forall i :: 0 <= i < |b| ==> p(b[i])
    requires (x == "" || !p(x[0])) && (y == "" || !p(y[0]))
    requires a + x == b + y
    ensures a == b && x == y
  {
    SpanStops(a, x, p);
    SpanStops(b, y, p);
    assert a == (a + x)[..|a|] && b == (b + y)[..|b|];
    assert x == (a + x)[|a|..] && y == (b + y)[|b|..];
  }

  function Lead(f: Field): nat {
    match f case Text(s) => |s| case Number(n) => n
  }

  function Rest(f: Field, x: string): string {
    match f case Text(s) => ":" + (s + ("|" + x)) case Number(_) => "|" + x
  }

  lemma FieldSplits(f: Field, x: string)
    ensures EncodeField(f) + x == Dec(Lead(f)) + Rest(f, x)
  {
    hide Dec;
    var d := Dec(Lead(f));
    if f.Text? {
      assert d + ":" + f.text + "|" + x == d + (":" + (f.text + ("|" + x)));
    } else {
      assert d + "|" + x == d + ("|" + x);
    }
  }

  lemma RestIsReadBack(f: Field, x: string, g: Field, y: string)
    requires Lead(f) == Lead(g) && Rest(f, x) == Rest(g, y)
    ensures f == g && x == y
  {
    assert Rest(f, x)[0] == Rest(g, y)[0];
    if f.Text? {
      assert f.text == Rest(f, x)[1..][..|f.text|] && g.text == Rest(g, y)[1..][..|f.text|];
      assert x == Rest(f, x)[1..][|f.text| + 1..] && y == Rest(g, y)[1..][|f.text| + 1..];
    } else {
      assert x == Rest(f, x)[1..] && y == Rest(g, y)[1..];
    }
  }

  /** The first field can be read back, whatever follows it. */
  lemma FieldIsReadBack(f: Field, x: string, g: Field, y: string)
    requires EncodeField(f) + x == EncodeField(g) + y
    ensures f == g && x == y
  {
    hide EncodeField, Dec;
    FieldSplits(f, x);
    FieldSplits(g, y);
    RunIsReadBack(Dec(Lead(f)), Rest(f, x), Dec(Lead(g)), Rest(g, y), Digit);
    DecIsInjective(Lead(f), Lead(g));
    RestIsReadBack(f, x, g, y);
  }

  lemma FieldIsNotEmpty(f: Field)
    ensures EncodeField(f) != ""
  {
  }

  /** A list of fields can be read back from its encoding, without knowing its length or its kinds. */
  lemma {:induction false} EncodeIsInjective(f: seq<Field>, g: seq<Field>)
    requires Encode(f) == Encode(g)
    ensures f == g
    decreases |f|
  {
    hide EncodeField;
    if f != [] {
      FieldIsNotEmpty(f[0]);
    }
    if g != [] {
      FieldIsNotEmpty(g[0]);
    }
    if f != [] && g != [] {
      FieldIsReadBack(f[0], Encode(f[1..]), g[0], Encode(g[1..]));
      EncodeIsInjective(f[1..], g[1..]);
      assert f == [f[0]] + f[1..] && g == [g[0]] + g[1..];
    }
  }

  /** `append` of a string and of an unsigned integer: the text grows by exactly one encoded field. */
  method AppendText(out: string, value: string, ghost fields: seq<Field>, ghost k: nat, ghost domain: string) returns (r: string)
    requires k < |fields| && fields[k] == Text(value) && out == domain + Encode(fields[..k])
    ensures r == domain + Encode(fields[..k + 1])
  {
    hide Dec, Encode;
    r := out + Dec(|value|);
    r := r + ":";
    r := r + value;
    r := r + "|";
    EncodeAppend(fields[..k], Text(value));
    assert fields[..k + 1] == fields[..k] + [Text(value)];
    assert r == domain + (Encode(fields[..k]) + EncodeField(Text(value)));
  }

  method AppendNumber(out: string, value: U64, ghost fields: seq<Field>, ghost k: nat, ghost domain: string) returns (r: string)
    requires k < |fields| && fields[k] == Number(value) && out == domain + Encode(fields[..k])
    ensures r == domain + Encode(fields[..k + 1])
  {
    hide Dec, Encode;
    r := out + Dec(value);
    r := r + "|";
    EncodeAppend(fields[..k], Number(value));
    assert fields[..k + 1] == fields[..k] + [Number(value)];
    assert r == domain + (Encode(fields[..k]) + EncodeField(Number(value)));
  }

  lemma NothingYet(domain: string, fields: seq<Field>)
    ensures domain == domain + Encode(fields[..0])
  {
    assert fields[..0] == [];
  }

  /** `static_cast<std::uint64_t>` of a signed 64-bit integer. */
  function Unsigned(n: I64): U64 {
    if n < 0 then n + UINT64_MAX + 1 else n
  }

  const INTENT_DOMAIN := "gaudere.cognition.local-goose-dialogue-responder-intent.v1|"
  const DISPOSITION_DOMAIN := "gaudere.cognition.local-goose-dialogue-responder-disposition.v1|"
  const GRANT_DOMAIN := "gaudere.cognition.local-goose-dialogue-responder-grant.v1|"
  const DECISION_DOMAIN := "gaudere.cognition.local-goose-dialogue-responder-decision.v1|"

  datatype Intent = Intent(
    leaseId: string, threadAlias: string, completionSequence: U64, eventId: string, resultHash: string, triggeringTask: string,
    expectedRevision: U64, expectedHead: string, speakerId: string, messageKind: string, message: string)

  function IntentFields(i: Intent): seq<Field> {
    [Text(i.leaseId), Text(i.threadAlias), Number(i.completionSequence), Text(i.eventId), Text(i.resultHash), Text(i.triggeringTask),
     Number(i.expectedRevision), Text(i.expectedHead), Text(i.speakerId), Text(i.messageKind), Text(i.message)]
  }

  /** The string `intent_digest` hashes. */
  method IntentMaterial(i: Intent) returns (canonical: string)
    ensures canonical == INTENT_DOMAIN + Encode(IntentFields(i))
  {
    ghost var f := IntentFields(i);
    hide Encode, Dec;
    NothingYet(INTENT_DOMAIN, f);
    canonical := INTENT_DOMAIN;
    canonical := AppendText(canonical, i.leaseId, f, 0, INTENT_DOMAIN);
    canonical := AppendText(canonical, i.threadAlias, f, 1, INTENT_DOMAIN);
    canonical := AppendNumber(canonical, i.completionSequence, f, 2, INTENT_DOMAIN);
    canonical := AppendText(canonical, i.eventId, f, 3, INTENT_DOMAIN);
    canonical := AppendText(canonical, i.resultHash, f, 4, INTENT_DOMAIN);
    canonical := AppendText(canonical, i.triggeringTask, f, 5, INTENT_DOMAIN);
    canonical := AppendNumber(canonical, i.expectedRevision, f, 6, INTENT_DOMAIN);
    canonical := AppendText(canonical, i.expectedHead, f, 7, INTENT_DOMAIN);
    canonical := AppendText(canonical, i.speakerId, f, 8, INTENT_DOMAIN);
    canonical := AppendText(canonical, i.messageKind, f, 9, INTENT_DOMAIN);
    canonical := AppendText(canonical, i.message, f, 10, INTENT_DOMAIN);
    assert f[..11] == f;
  }

  datatype Disposition = Disposition(
    consumerId: string, threadAlias: string, completionSequence: U64, eventId: string, resultHash: string, threadRevision: U64,
    taskId: string, speakerKind: string, speakerId: string, kind: DispositionKind)

  datatype DispositionKind = StructuralSkipSystem | StructuralSkipStale | ExplicitDecline | Intervention

  function KindNumber(k: DispositionKind): U64 {
    match k case StructuralSkipSystem => 0 case StructuralSkipStale => 1 case ExplicitDecline => 2 case Intervention => 3
  }

  function DispositionFields(d: Disposition): seq<Field> {
    [Text(d.consumerId), Text(d.threadAlias), Number(d.completionSequence), Text(d.eventId), Text(d.resultHash), Number(d.threadRevision),
     Text(d.taskId), Text(d.speakerKind), Text(d.speakerId), Number(KindNumber(d.kind))]
  }

  /** `createdAt` and `expiresAt` enter the identity only through their difference. */
  datatype Grant = Grant(
    requestId: string, authoritySource: string, threadAlias: string, speakerKind: string, speakerId: string, allowedKinds: U64,
    purpose: string, maxTurns: U64, maxLeaseTtl: I64, minInterval: I64, createdAt: I64, expiresAt: I64)

  /** The builder computes a digest only for a grant that outlives its creation; the difference must be an `int64_t`. */
  predicate DigestedGrant(g: Grant) {
    g.createdAt < g.expiresAt && g.expiresAt - g.createdAt <= INT64_MAX
  }

  function GrantFields(g: Grant): seq<Field>
    requires DigestedGrant(g)
  {
    [Text(g.requestId), Text(g.authoritySource), Text(g.threadAlias), Text(g.speakerKind), Text(g.speakerId), Number(g.allowedKinds),
     Text(g.purpose), Number(g.maxTurns), Number(Unsigned(g.maxLeaseTtl)), Number(Unsigned(g.minInterval)),
     Number(Unsigned(g.expiresAt - g.createdAt))]
  }

  datatype Decision = Decision(
    requestId: string, authoritySource: string, grantId: string, leaseId: string, consumerId: string, completionSequence: U64,
    eventId: string, resultHash: string, threadAlias: string, threadRevision: U64, taskId: string, observedSpeakerKind: string,
    observedSpeakerId: string, expectedHeadRevision: U64, expectedHeadTask: string, responderSpeakerKind: string,
    responderSpeakerId: string, messageKind: string, message: string, intentTtl: I64)

  function DecisionFields(d: Decision): seq<Field> {
    [Text(d.requestId), Text(d.authoritySource), Text(d.grantId), Text(d.leaseId), Text(d.consumerId), Number(d.completionSequence),
     Text(d.eventId), Text(d.resultHash), Text(d.threadAlias), Number(d.threadRevision), Text(d.taskId), Text(d.observedSpeakerKind),
     Text(d.observedSpeakerId), Number(d.expectedHeadRevision), Text(d.expectedHeadTask), Text(d.responderSpeakerKind),
     Text(d.responderSpeakerId), Text(d.messageKind), Text(d.message), Number(Unsigned(d.intentTtl))]
  }

  lemma DomainIsReadBack(domain: string, f: seq<Field>, g: seq<Field>)
    requires domain + Encode(f) == domain + Encode(g)
    ensures f == g
  {
    assert Encode(f) == (domain + Encode(f))[|domain|..] == (domain + Encode(g))[|domain|..] == Encode(g);
    EncodeIsInjective(f, g);
  }

  lemma UnsignedIsInjective(m: I64, n: I64)
    requires Unsigned(m) == Unsigned(n)
    ensures m == n
  {
  }

  lemma IntentMaterialIsUnique(i: Intent, j: Intent)
    ensures INTENT_DOMAIN + Encode(IntentFields(i)) == INTENT_DOMAIN + Encode(IntentFields(j)) <==> i == j
  {
    if INTENT_DOMAIN + Encode(IntentFields(i)) == INTENT_DOMAIN + Encode(IntentFields(j)) {
      var f, g := IntentFields(i), IntentFields(j);
      DomainIsReadBack(INTENT_DOMAIN, f, g);
      assert forall k :: 0 <= k < |f| ==> f[k] == g[k];
      assert f[0] == g[0] && f[1] == g[1] && f[2] == g[2] && f[3] == g[3] && f[4] == g[4] && f[5] == g[5] && f[6] == g[6]
          && f[7] == g[7] && f[8] == g[8] && f[9] == g[9] && f[10] == g[10];
    }
  }

  lemma DispositionMaterialIsUnique(i: Disposition, j: Disposition)
    ensures DISPOSITION_DOMAIN + Encode(DispositionFields(i)) == DISPOSITION_DOMAIN + Encode(DispositionFields(j)) <==> i == j
  {
    if DISPOSITION_DOMAIN + Encode(DispositionFields(i)) == DISPOSITION_DOMAIN + Encode(DispositionFields(j)) {
      var f, g := DispositionFields(i), DispositionFields(j);
      DomainIsReadBack(DISPOSITION_DOMAIN, f, g);
      assert f[0] == g[0] && f[1] == g[1] && f[2] == g[2] && f[3] == g[3] && f[4] == g[4] && f[5] == g[5] && f[6] == g[6]
          && f[7] == g[7] && f[8] == g[8] && f[9] == g[9];
    }
  }

  /** A grant's identity is everything but its creation time: two grants share it exactly when they differ in nothing
      else than when they were issued, for the same lifetime. */
  lemma GrantMaterialIsUnique(g: Grant, h: Grant)
    requires DigestedGrant(g) && DigestedGrant(h)
    ensures GRANT_DOMAIN + Encode(GrantFields(g)) == GRANT_DOMAIN + Encode(GrantFields(h))
            <==> g == h.(createdAt := g.createdAt, expiresAt := g.expiresAt) && g.expiresAt - g.createdAt == h.expiresAt - h.createdAt
  {
    if GRANT_DOMAIN + Encode(GrantFields(g)) == GRANT_DOMAIN + Encode(GrantFields(h)) {
      var a, b := GrantFields(g), GrantFields(h);
      DomainIsReadBack(GRANT_DOMAIN, a, b);
      assert a[0] == b[0] && a[1] == b[1] && a[2] == b[2] && a[3] == b[3] && a[4] == b[4] && a[5] == b[5] && a[6] == b[6]
          && a[7] == b[7] && a[8] == b[8] && a[9] == b[9] && a[10] == b[10];
      UnsignedIsInjective(g.maxLeaseTtl, h.maxLeaseTtl);
      UnsignedIsInjective(g.minInterval, h.minInterval);
      UnsignedIsInjective(g.expiresAt - g.createdAt, h.expiresAt - h.createdAt);
    }
  }

  lemma DecisionMaterialIsUnique(i: Decision, j: Decision)
    ensures DECISION_DOMAIN + Encode(DecisionFields(i)) == DECISION_DOMAIN + Encode(DecisionFields(j)) <==> i == j
  {
    if DECISION_DOMAIN + Encode(DecisionFields(i)) == DECISION_DOMAIN + Encode(DecisionFields(j)) {
      var f, g := DecisionFields(i), DecisionFields(j);
      DomainIsReadBack(DECISION_DOMAIN, f, g);
      assert f[0] == g[0] && f[1] == g[1] && f[2] == g[2] && f[3] == g[3] && f[4] == g[4] && f[5] == g[5] && f[6] == g[6]
          && f[7] == g[7] && f[8] == g[8] && f[9] == g[9];
      assert f[10] == g[10] && f[11] == g[11] && f[12] == g[12] && f[13] == g[13] && f[14] == g[14] && f[15] == g[15]
          && f[16] == g[16] && f[17] == g[17] && f[18] == g[18] && f[19] == g[19];
      UnsignedIsInjective(i.intentTtl, j.intentTtl);
    }
  }

  /** No identity of one kind shares its material with an identity of another kind. */
  lemma DomainsAreSeparate(f: seq<Field>, g: seq<Field>, m: nat, n: nat)
    requires m < n < 4
    ensures var domains := [INTENT_DOMAIN, DISPOSITION_DOMAIN, GRANT_DOMAIN, DECISION_DOMAIN];
      domains[m] + Encode(f) != domains[n] + Encode(g)
  {
    var domains := [INTENT_DOMAIN, DISPOSITION_DOMAIN, GRANT_DOMAIN, DECISION_DOMAIN];
    var a, b := domains[m] + Encode(f), domains[n] + Encode(g);
    assert INTENT_DOMAIN[49] == 'i' && DISPOSITION_DOMAIN[49] == 'd' && GRANT_DOMAIN[49] == 'g' && DECISION_DOMAIN[49] == 'd';
    assert DISPOSITION_DOMAIN[50] == 'i' && DECISION_DOMAIN[50] == 'e';
    assert a[49] == domains[m][49] && a[50] == domains[m][50] && b[49] == domains[n][49] && b[50] == domains[n][50];
  }

  // --- Lines ------------------------------------------------------------------------------------------------------

  predicate InLine(c: char) {
    c != '\n'
  }

  predicate OneLine(s: string) {
    forall i :: 0 <= i < |s| ==> InLine(s[i])
  }

  /** Lines separated by newlines. */
  function Lines(lines: seq<string>): string {
    if lines == [] then "" else lines[0] + (if |lines| == 1 then "" else "\n" + Lines(lines[1..]))
  }

  /** Lines without newlines can be read back, given how many there are. */
  lemma {:induction false} LinesAreReadBack(a: seq<string>, b: seq<string>)
    requires |a| == |b| && (forall i :: 0 <= i < |a| ==> OneLine(a[i]) && OneLine(b[i]))
    requires Lines(a) == Lines(b)
    ensures a == b
  {
    if a != [] {
      var x := if |a| == 1 then "" else "\n" + Lines(a[1..]);
      var y := if |b| == 1 then "" else "\n" + Lines(b[1..]);
      assert OneLine(a[0]) && OneLine(b[0]);
      RunIsReadBack(a[0], x, b[0], y, InLine);
      if |a| > 1 {
        assert Lines(a[1..]) == x[1..] && Lines(b[1..]) == y[1..];
        LinesAreReadBack(a[1..], b[1..]);
      }
      assert a == [a[0]] + a[1..] && b == [b[0]] + b[1..];
    }
  }

  const STIMULUS_SCOPE := "cognition.local-goose-cycle.stimulus.v1"
  const STIMULUS_SOURCE := "explicit_local_recheck"

  function StimulusLines(sourceId: string, revision: U64, generation: U64): seq<string> {
    [STIMULUS_SCOPE, STIMULUS_SOURCE, sourceId, Dec(revision), Dec(generation)]
  }

  /** `identity_material` of a stimulus determines its source, its target revision and its target generation. */
  lemma StimulusMaterialIsUnique(s: string, r: U64, g: U64, s': string, r': U64, g': U64)
    requires SafeIdentifier(s, 128) && SafeIdentifier(s', 128)
    ensures Lines(StimulusLines(s, r, g)) == Lines(StimulusLines(s', r', g')) <==> s == s' && r == r' && g == g'
  {
    if Lines(StimulusLines(s, r, g)) == Lines(StimulusLines(s', r', g')) {
      hide Lines, Dec;
      var a, b := StimulusLines(s, r, g), StimulusLines(s', r', g');
      LinesAreReadBack(a, b);
      assert a[2] == b[2] && a[3] == b[3] && a[4] == b[4];
      DecIsInjective(r, r');
      DecIsInjective(g, g');
    }
  }

  const CHECKPOINT_PREFIX := "continuity.delta-checkpoint.v1:"
  const OBSERVATION_PREFIX := "continuity.local-observation.v1:"

  datatype Opportunity = Opportunity(
    generation: U64, due: I64, anchorTask: string, anchorHash: string, predTask: Option<string>, predHash: Option<string>)

  predicate PrefixedSha256(s: string, prefix: string) {
    |s| == |prefix| + 64 && s[..|prefix|] == prefix && LowercaseSha256(s[|prefix|..])
  }

  /** `validate_opportunity`. */
  predicate ValidOpportunity(o: Opportunity) {
    && 1 <= o.generation <= 3 && o.due >= 0
    && PrefixedSha256(o.anchorTask, CHECKPOINT_PREFIX) && LowercaseSha256(o.anchorHash)
    && if o.generation == 1 then o.predTask.None? && o.predHash.None?
       else
         && o.predTask.Some? && PrefixedSha256(o.predTask.value, OBSERVATION_PREFIX)
         && o.predHash.Some? && LowercaseSha256(o.predHash.value)
  }

  function Present(s: Option<string>): string {
    if s.Some? then s.value else ""
  }

  function ObservationSchema(): string {
    "gaudere.continuity." + "local-observation.identity.v1"
  }

  function ObservationScope(): string {
    "continuity.local-observation.v1"
  }

  function Label(k: nat): string {
    match k
    case 0 => "schema="
    case 1 => "scope="
    case 2 => "generation="
    case 3 => "due_at_ms="
    case 4 => "anchor_checkpoint_task_id="
    case 5 => "anchor_checkpoint_" + "result_sha256="
    case 6 => "predecessor_observation_" + "task_id="
    case 7 => "predecessor_observation_" + "result_sha256="
    case _ => ""
  }

  function OpportunityLines(o: Opportunity): seq<string>
    requires o.due >= 0
  {
    [Label(0) + ObservationSchema(), Label(1) + ObservationScope(), Label(2) + Dec(o.generation), Label(3) + Dec(o.due),
     Label(4) + o.anchorTask, Label(5) + o.anchorHash, Label(6) + Present(o.predTask), Label(7) + Present(o.predHash), Label(8)]
  }

  lemma {:induction false} LinesAppend(lines: seq<string>, line: string)
    requires lines != []
    ensures Lines(lines + [line]) == Lines(lines) + ("\n" + line)
  {
    assert (lines + [line])[1..] == lines[1..] + [line];
    if |lines| > 1 {
      LinesAppend(lines[1..], line);
      var x, y := Lines(lines[1..]), "\n" + line;
      assert lines[0] + ("\n" + (x + y)) == (lines[0] + ("\n" + x)) + y;
    } else {
      assert lines[1..] + [line] == [line];
    }
  }

  /** One more `key=value` line. */
  method AppendLine(out: string, value: string, ghost lines: seq<string>, k: nat) returns (r: string)
    requires 0 < k < |lines| && lines[k] == Label(k) + value && out == Lines(lines[..k])
    ensures r == Lines(lines[..k + 1])
  {
    hide Lines, Label;
    r := out + ("\n" + (Label(k) + value));
    LinesAppend(lines[..k], Label(k) + value);
    assert lines[..k + 1] == lines[..k] + [Label(k) + value];
  }

  lemma FirstLine(lines: seq<string>)
    requires lines != []
    ensures Lines(lines[..1]) == lines[0]
  {
    assert lines[..1] == [lines[0]];
  }

  /** The string `local_continuity_observation_opportunity_identity` grows line by line. */
  method OpportunityMaterial(o: Opportunity) returns (identity: string)
    requires ValidOpportunity(o)
    ensures identity == Lines(OpportunityLines(o))
  {
    ghost var l := OpportunityLines(o);
    hide Lines, Dec, Label, ValidOpportunity, Present, ObservationSchema, ObservationScope;
    FirstLine(l);
    identity := Label(0) + ObservationSchema();
    identity := AppendLine(identity, ObservationScope(), l, 1);
    identity := AppendLine(identity, Dec(o.generation), l, 2);
    identity := AppendLine(identity, Dec(o.due), l, 3);
    identity := AppendLine(identity, o.anchorTask, l, 4);
    identity := AppendLine(identity, o.anchorHash, l, 5);
    identity := AppendLine(identity, Present(o.predTask), l, 6);
    identity := AppendLine(identity, Present(o.predHash), l, 7);
    assert l[8] == Label(8) + "";
    identity := AppendLine(identity, "", l, 8);
    assert l[..9] == l;
  }

  lemma KeyIsReadBack(key: string, a: string, b: string)
    requires key + a == key + b
    ensures a == b
  {
    assert a == (key + a)[|key|..] && b == (key + b)[|key|..];
  }

  lemma PrefixedIsOneLine(s: string, prefix: string)
    requires PrefixedSha256(s, prefix) && OneLine(prefix)
    ensures OneLine(s) && s != ""
  {
    var tail := s[|prefix|..];
    assert s == prefix + tail;
    forall i | 0 <= i < |s|
      ensures InLine(s[i])
    {
      if i < |prefix| {
        assert s[i] == prefix[i] && InLine(prefix[i]);
      } else {
        assert s[i] == tail[i - |prefix|] && HexDigit(tail[i - |prefix|]);
      }
    }
  }

  /** The material determines a valid opportunity: an absent predecessor is an empty value, and a valid one is not. */
  lemma OpportunityMaterialIsUnique(o: Opportunity, p: Opportunity)
    requires ValidOpportunity(o) && ValidOpportunity(p)
    ensures Lines(OpportunityLines(o)) == Lines(OpportunityLines(p)) <==> o == p
  {
    if Lines(OpportunityLines(o)) == Lines(OpportunityLines(p)) {
      OpportunityIsLines(o);
      OpportunityIsLines(p);
      var a, b := OpportunityLines(o), OpportunityLines(p);
      LinesAreReadBack(a, b);
      hide Lines, Dec, Label, PrefixedSha256, LowercaseSha256;
      assert a[2] == b[2] && a[3] == b[3] && a[4] == b[4] && a[5] == b[5] && a[6] == b[6] && a[7] == b[7];
      KeyIsReadBack(Label(2), Dec(o.generation), Dec(p.generation));
      KeyIsReadBack(Label(3), Dec(o.due), Dec(p.due));
      KeyIsReadBack(Label(4), o.anchorTask, p.anchorTask);
      KeyIsReadBack(Label(5), o.anchorHash, p.anchorHash);
      KeyIsReadBack(Label(6), Present(o.predTask), Present(p.predTask));
      KeyIsReadBack(Label(7), Present(o.predHash), Present(p.predHash));
      DecIsInjective(o.generation, p.generation);
      DecIsInjective(o.due, p.due);
    }
  }

  lemma LabelledIsOneLine(k: nat, value: string)
    requires OneLine(value)
    ensures OneLine(Label(k) + value)
  {
    LabelIsOneLine(k);
    hide Label;
    assert forall i :: 0 <= i < |Label(k) + value| ==> InLine((Label(k) + value)[i]);
  }

  lemma LabelIsOneLine(k: nat)
    ensures OneLine(Label(k))
  {
    if k < 5 {
      ShortLabels(k);
    } else {
      LongLabels(k);
    }
  }

  lemma ShortLabels(k: nat)
    requires k < 5
    ensures OneLine(Label(k))
  {
  }

  lemma LongLabels(k: nat)
    requires k >= 5
    ensures OneLine(Label(k))
  {
    ConcatIsOneLine("anchor_checkpoint_", "result_sha256=");
    ConcatIsOneLine("predecessor_observation_", "task_id=");
    ConcatIsOneLine("predecessor_observation_", "result_sha256=");
  }

  lemma ConcatIsOneLine(a: string, b: string)
    requires OneLine(a) && OneLine(b)
    ensures OneLine(a + b)
  {
  }

  lemma HexIsOneLine(s: string)
    requires LowercaseSha256(s)
    ensures OneLine(s)
  {
    forall i | 0 <= i < |s|
      ensures InLine(s[i])
    {
      assert HexDigit(s[i]);
    }
  }

  lemma HeadersAreOneLine()
    ensures OneLine(ObservationSchema()) && OneLine(ObservationScope())
  {
    assert OneLine("gaudere.continuity.");
    assert OneLine("local-observation.identity.v1");
    assert OneLine("gaudere.continuity." + "local-observation.identity.v1");
  }

  lemma OpportunityIsLines(o: Opportunity)
    requires ValidOpportunity(o)
    ensures forall i :: 0 <= i < 9 ==> OneLine(OpportunityLines(o)[i])
  {
    hide Label;
    assert OneLine(CHECKPOINT_PREFIX) && OneLine(OBSERVATION_PREFIX);
    PrefixedIsOneLine(o.anchorTask, CHECKPOINT_PREFIX);
    HexIsOneLine(o.anchorHash);
    if o.generation > 1 {
      PrefixedIsOneLine(o.predTask.value, OBSERVATION_PREFIX);
      HexIsOneLine(o.predHash.value);
    }
    hide LowercaseSha256, PrefixedSha256, Dec;
    HeadersAreOneLine();
    LabelledIsOneLine(0, ObservationSchema());
    LabelledIsOneLine(1, ObservationScope());
    LabelledIsOneLine(2, Dec(o.generation));
    LabelledIsOneLine(3, Dec(o.due));
    LabelledIsOneLine(4, o.anchorTask);
    LabelledIsOneLine(5, o.anchorHash);
    LabelledIsOneLine(6, Present(o.predTask));
    LabelledIsOneLine(7, Present(o.predHash));
    LabelledIsOneLine(8, "");
    assert Label(8) + "" == Label(8);
  }
}
