/**
 * The part of `analyzeProjectForPartners` that runs after the backend call:
 * the shape check of the parsed reply, the per-partner defaulting and
 * clamping, and the rewriting of every error thrown inside the `try` block.
 * The chat call and `JSON.parse` are not modelled: their outcome is the
 * `Reply` parameter, either the parsed value or the message of the error
 * they threw.
 */
module Analyzer {
  import opened Js
  import opened Schema

  datatype Reply = Replied(parsed: Json) | Threw(message: string)

  /** The parsed reply with `partners` replaced by the normalised list; every other top-level field is kept as it was. */
  datatype Analysis = Analysis(fields: map<string, Json>, partners: seq<Partner>)

  datatype Result<+T> = Ok(value: T) | Err(message: string)

  const InvalidFormat := "Invalid response format from OpenAI"
  /** Written in three pieces so that the word the route looks for stands apart. */
  const QuotaMessage :=
    "AI analysis service is temporarily unavailable due to " + "quota"
    + " limits. Please check your OpenAI API billing or try again later."
  const FailurePrefix := "Failed to analyze project: "
  /** The TypeError a property read on `null` throws (the parsed reply itself, or one partner entry). */
  const NullRead := "Cannot read properties of null (reading '"
  const NullSummaryRead := NullRead + "summary')"
  const NullPartnerRead := NullRead + "name')"

  const DefaultScore := 50
  const DefaultName := "Unknown Partner"
  const DefaultKind := "Unknown"

  /** `Math.max(1, Math.min(100, n))` */
  function Clamp(n: int): (r: int)
    ensures 1 <= r <= 100
    ensures 1 <= n <= 100 ==> r == n
    ensures n > 100 ==> r == 100
    ensures n < 1 ==> r == 1
  {
    var upper := if n < 100 then n else 100;
    if upper > 1 then upper else 1
  }

  /** `Math.max(1, Math.min(100, v || 50))` for a score field. */
  function NormalizeScore(v: Option<Json>): (r: int)
    ensures 1 <= r <= 100
    ensures ScoreRule(v, r)
  {
    if TruthyOpt(v) && v.value.JNum? then Clamp(v.value.n) else Clamp(DefaultScore)
  }

  /** What `Math.max(1, Math.min(100, v || 50))` gives for a falsy value and for a nonzero number. */
  predicate ScoreRule(v: Option<Json>, r: int) {
    && (!TruthyOpt(v) ==> r == DefaultScore)
    && (v.Some? && v.value.JNum? && v.value.n != 0 ==> r == Clamp(v.value.n))
  }

  /** What `v || d` gives for a falsy value and for a non-empty string. */
  predicate TextRule(v: Option<Json>, d: string, r: string) {
    && (!TruthyOpt(v) ==> r == d)
    && (v.Some? && v.value.JStr? && v.value.s != "" ==> r == v.value.s)
  }

  /** `v || d` for a string field. */
  function NormalizeText(v: Option<Json>, d: string): (r: string)
    ensures TextRule(v, d, r)
  {
    if TruthyOpt(v) && v.value.JStr? then v.value.s else d
  }

  /** The object literal built for one partner entry: exactly these ten keys survive. */
  function NormalizePartner(raw: Json): (p: Partner)
    ensures WellFormed(p)
    ensures TextRule(Prop(raw, "name"), DefaultName, p.name) && TextRule(Prop(raw, "type"), DefaultKind, p.kind)
    ensures TextRule(Prop(raw, "description"), "", p.description) && TextRule(Prop(raw, "reasoning"), "", p.reasoning)
    ensures TextRule(Prop(raw, "community"), "", p.community) && TextRule(Prop(raw, "tvl"), "", p.tvl)
    ensures ScoreRule(Prop(raw, "matchScore"), p.matchScore) && ScoreRule(Prop(raw, "missionScore"), p.missionScore)
    ensures ScoreRule(Prop(raw, "technicalScore"), p.technicalScore)
    ensures ScoreRule(Prop(raw, "strategicScore"), p.strategicScore)
  {
    Partner(
      NormalizeText(Prop(raw, "name"), DefaultName),
      NormalizeText(Prop(raw, "type"), DefaultKind),
      NormalizeText(Prop(raw, "description"), ""),
      NormalizeText(Prop(raw, "reasoning"), ""),
      NormalizeScore(Prop(raw, "matchScore")),
      NormalizeScore(Prop(raw, "missionScore")),
      NormalizeScore(Prop(raw, "technicalScore")),
      NormalizeScore(Prop(raw, "strategicScore")),
      NormalizeText(Prop(raw, "community"), ""),
      NormalizeText(Prop(raw, "tvl"), ""))
  }

  /** A partner as a JSON object with its ten keys. */
  function PartnerJson(p: Partner): Json {
    JObj(map[
      "name" := JStr(p.name), "type" := JStr(p.kind),
      "description" := JStr(p.description), "reasoning" := JStr(p.reasoning),
      "matchScore" := JNum(p.matchScore), "missionScore" := JNum(p.missionScore),
      "technicalScore" := JNum(p.technicalScore), "strategicScore" := JNum(p.strategicScore),
      "community" := JStr(p.community), "tvl" := JStr(p.tvl)])
  }

  /** Every score in [1, 100] and a non-empty name and type: what normalisation guarantees. */
  predicate WellFormed(p: Partner) {
    p.name != "" && p.kind != "" && ScoresInRange(p)
  }

  /** Every normalised partner is well formed. */
  lemma NormalizedIsWellFormed(raw: Json)
    ensures WellFormed(NormalizePartner(raw))
  {
  }

  /** Normalising an already-normalised partner changes nothing. */
  lemma NormalizeIdempotent(raw: Json)
    ensures NormalizePartner(PartnerJson(NormalizePartner(raw))) == NormalizePartner(raw)
  {
    NormalizeFixesWellFormed(NormalizePartner(raw));
  }

  /** A well-formed partner is a fixed point of normalisation. */
  lemma NormalizeFixesWellFormed(p: Partner)
    requires WellFormed(p)
    ensures NormalizePartner(PartnerJson(p)) == p
  {
    PartnerJsonTexts(p);
    PartnerJsonScores(p);
  }

  /** Reading the six text keys back from a partner's JSON object. */
  lemma PartnerJsonTexts(p: Partner)
    ensures var j := PartnerJson(p);
      && Prop(j, "name") == Some(JStr(p.name)) && Prop(j, "type") == Some(JStr(p.kind))
      && Prop(j, "description") == Some(JStr(p.description)) && Prop(j, "reasoning") == Some(JStr(p.reasoning))
      && Prop(j, "community") == Some(JStr(p.community)) && Prop(j, "tvl") == Some(JStr(p.tvl))
  {
    var j := PartnerJson(p);
    assert Prop(j, "name") == Some(JStr(p.name));
    assert Prop(j, "type") == Some(JStr(p.kind));
    assert Prop(j, "description") == Some(JStr(p.description));
    assert Prop(j, "reasoning") == Some(JStr(p.reasoning));
    assert Prop(j, "community") == Some(JStr(p.community));
  }

  /** Reading the four score keys back from a partner's JSON object. */
  lemma PartnerJsonScores(p: Partner)
    ensures var j := PartnerJson(p);
      && Prop(j, "matchScore") == Some(JNum(p.matchScore)) && Prop(j, "missionScore") == Some(JNum(p.missionScore))
      && Prop(j, "technicalScore") == Some(JNum(p.technicalScore))
      && Prop(j, "strategicScore") == Some(JNum(p.strategicScore))
  {
    var j := PartnerJson(p);
    assert Prop(j, "matchScore") == Some(JNum(p.matchScore));
    assert Prop(j, "missionScore") == Some(JNum(p.missionScore));
    assert Prop(j, "technicalScore") == Some(JNum(p.technicalScore));
  }

  /** Score examples: 250 becomes 100, -5 becomes 1, 0 and an absent score become 50. */
  lemma ScoreExamples()
    ensures NormalizeScore(Some(JNum(250))) == 100
    ensures NormalizeScore(Some(JNum(-5))) == 1
    ensures NormalizeScore(Some(JNum(0))) == 50
    ensures NormalizeScore(None) == 50
    ensures NormalizeScore(Some(JNull)) == 50
  {
  }

  /** `partners.map(...)`: one normalised entry per backend entry, in the same order. */
  function NormalizePartners(items: seq<Json>): (r: seq<Partner>)
    requires JNull !in items
    ensures |r| == |items|
    ensures forall i :: 0 <= i < |items| ==> r[i] == NormalizePartner(items[i])
  {
    seq(|items|, i requires 0 <= i < |items| => NormalizePartner(items[i]))
  }

  /** The `catch` block: a message mentioning 429 becomes the quota message, any other is prefixed. */
  function Rewrite(m: string): (r: string)
    ensures Contains(m, "429") ==> r == QuotaMessage
    ensures !Contains(m, "429") ==> StartsWith(r, FailurePrefix) && r[|FailurePrefix|..] == m
  {
    if Contains(m, "429") then QuotaMessage else FailurePrefix + m
  }

  /** The shape check: a truthy `summary` and an array `partners`. */
  predicate WellShaped(v: Json)
    ensures WellShaped(v) ==> v.JObj? && "summary" in v.fields && "partners" in v.fields
    ensures WellShaped(v) ==> Truthy(v.fields["summary"]) && v.fields["partners"].JArr?
  {
    TruthyOpt(Prop(v, "summary")) && Prop(v, "partners").Some? && Prop(v, "partners").value.JArr?
  }

  /** `analyzeProjectForPartners` after the backend call: the analysis, or the message of the error it throws. */
  function AnalyzeReply(reply: Reply): (r: Result<Analysis>)
    ensures r.Ok? <==>
      reply.Replied? && WellShaped(reply.parsed) && JNull !in Prop(reply.parsed, "partners").value.items
    ensures r.Ok? ==>
      var items := Prop(reply.parsed, "partners").value.items;
      && |r.value.partners| == |items|
      && (forall i :: 0 <= i < |items| ==> r.value.partners[i] == NormalizePartner(items[i]))
      && r.value.fields == reply.parsed.fields - {"partners"}
      && "summary" in r.value.fields && Truthy(r.value.fields["summary"])
    ensures reply.Threw? ==> r == Err(Rewrite(reply.message))
    ensures reply.Replied? && !WellShaped(reply.parsed) && reply.parsed != JNull ==>
      r == Err(FailurePrefix + InvalidFormat)
  {
    match reply
    case Threw(m) => Err(Rewrite(m))
    case Replied(v) =>
      if v.JNull? then Err(Rewrite(NullSummaryRead))
      else if !WellShaped(v) then
        InvalidFormatPlain();
        PlainErrorUnmarked(InvalidFormat);
        Err(Rewrite(InvalidFormat))
      else
        var items := Prop(v, "partners").value.items;
        if JNull in items then Err(Rewrite(NullPartnerRead))
        else Ok(Analysis(v.fields - {"partners"}, NormalizePartners(items)))
  }

  /** The fixed quota message mentions "quota". */
  lemma QuotaMessageMentionsQuota()
    ensures Contains(QuotaMessage, "quota")
  {
    ContainsInfix("AI analysis service is temporarily unavailable due to ", "quota",
      " limits. Please check your OpenAI API billing or try again later.");
  }

  /**
   * Rewriting keeps what the route looks for: a message without "429" gains
   * no "429", "quota" or "401" from the prefix and loses none.
   */
  lemma RewriteKeepsMarkers(m: string)
    requires !Contains(m, "429")
    ensures Rewrite(m) == FailurePrefix + m
    ensures !Contains(Rewrite(m), "429")
    ensures Contains(Rewrite(m), "quota") <==> Contains(m, "quota")
    ensures Contains(Rewrite(m), "401") <==> Contains(m, "401")
  {
    ContainsAfterPrefix(FailurePrefix, m, "429");
    ContainsAfterPrefix(FailurePrefix, m, "quota");
    ContainsAfterPrefix(FailurePrefix, m, "401");
  }

  /** A message with no '4' and no 'q' can carry none of the markers "429", "quota" and "401". */
  predicate Plain(m: string) {
    '4' !in m && 'q' !in m
  }

  lemma Unmarked(m: string)
    requires Plain(m)
    ensures !Contains(m, "429") && !Contains(m, "quota") && !Contains(m, "401")
  {
    NotContainsWithoutHead(m, "429");
    NotContainsWithoutHead(m, "quota");
    NotContainsWithoutHead(m, "401");
  }

  /** The fixed prefix and the errors the normaliser raises itself are plain. */
  lemma OwnMessagesPlain()
    ensures Plain(FailurePrefix) && Plain(InvalidFormat) && Plain(NullSummaryRead) && Plain(NullPartnerRead)
  {
    PrefixPlain();
    InvalidFormatPlain();
    NullReadPlain();
    assert NullSummaryRead == NullRead + "summary')" && NullPartnerRead == NullRead + "name')";
  }

  lemma PrefixPlain() ensures Plain(FailurePrefix) { }
  lemma InvalidFormatPlain() ensures Plain(InvalidFormat) { }
  lemma NullReadPlain() ensures Plain(NullRead) { }

  /** A plain error reaches the route prefixed, and still carries none of the markers. */
  lemma PlainErrorUnmarked(m: string)
    requires Plain(m)
    ensures Rewrite(m) == FailurePrefix + m
    ensures !Contains(Rewrite(m), "429") && !Contains(Rewrite(m), "quota") && !Contains(Rewrite(m), "401")
  {
    Unmarked(m);
    OwnMessagesPlain();
    Unmarked(FailurePrefix + m);
  }

  /** An empty-string summary fails the shape check even when `partners` is an array. */
  lemma EmptySummaryRejected(partners: seq<Json>)
    ensures AnalyzeReply(Replied(JObj(map["summary" := JStr(""), "partners" := JArr(partners)])))
         == Err(FailurePrefix + InvalidFormat)
  {
  }
}
