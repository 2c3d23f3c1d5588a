/**
 * The analysis flow of the home page: which endpoint a submission goes to,
 * the automatic retry on the demo endpoint when the quota is exhausted, the
 * rewriting of key errors, the toast shown afterwards, the demo toggle and
 * "New Analysis". What `apiRequest` and `response.json()` produce is a
 * `Fetch` parameter: the decoded body, or the message of the error thrown.
 */
module Client {
  import opened Js
  import opened Routes
  import opened Analyzer

  /** The body the analysis endpoints send back, as the page keeps it. */
  datatype AnalysisResult = AnalysisResult(projectId: int, summary: Json, isDemo: bool, partners: seq<ResponsePartner>)

  datatype Fetch = Fetched(result: AnalysisResult) | Failed(message: string)

  /** How `mutationFn` settles: its value, or the message of the error it throws. */
  datatype Outcome = Resolved(result: AnalysisResult) | Rejected(message: string)

  datatype Toast =
    | SuccessToast(title: string, description: string)
    | FailureToast(title: string, description: string, settingsAction: bool)

  const AnalyzeEndpoint := "/api/analyze"
  const DemoEndpoint := "/api/analyze-demo"

  /** Written in three pieces so that the phrase the error toast looks for stands apart. */
  const KeyErrorMessage := "Invalid OpenAI " + "API key" + KeyErrorTail
  const KeyErrorTail := ". Please provide a valid " + "API key in Settings " + "to enable AI analysis."

  const DemoTitle := "Demo Analysis Complete"
  const PlainTitle := "Analysis Complete"
  const FailureTitle := "Analysis Failed"

  /** The endpoint the first request goes to. */
  function Endpoint(isDemoMode: bool): (e: string)
    ensures e == DemoEndpoint <==> isDemoMode
    ensures e == AnalyzeEndpoint <==> !isDemoMode
  {
    if isDemoMode then DemoEndpoint else AnalyzeEndpoint
  }

  /**
   * The test that switches to demo mode and retries. The fixed key message
   * fails it, so a key error the page raises itself never triggers the retry.
   */
  predicate QuotaLike(m: string)
    ensures m == KeyErrorMessage ==> !QuotaLike(m)
  {
    KeyMessageIsPlain();
    Contains(m, "402") || Contains(m, "quota")
  }

  /** The test that turns an error into the fixed key message; the key message itself passes it. */
  predicate KeyLike(m: string)
    ensures m == KeyErrorMessage ==> KeyLike(m)
  {
    KeyMessageIsPlain();
    Contains(m, "401") || Contains(m, "Invalid")
  }

  /**
   * `mutationFn`: the first reply when it succeeds; on a quota-like failure
   * the demo retry, marked `isDemo`, or that retry's own error unchanged; on
   * a key-like failure the fixed key message; any other failure as it was.
   */
  function Mutation(first: Fetch, retry: Fetch): (o: Outcome)
    ensures first.Fetched? ==> o == Resolved(first.result)
    ensures first.Failed? && QuotaLike(first.message) ==>
      o == if retry.Fetched? then Resolved(retry.result.(isDemo := true)) else Rejected(retry.message)
    ensures first.Failed? && !QuotaLike(first.message) && KeyLike(first.message) ==> o == Rejected(KeyErrorMessage)
    ensures first.Failed? && !QuotaLike(first.message) && !KeyLike(first.message) ==> o == Rejected(first.message)
  {
    match first
    case Fetched(r) => Resolved(r)
    case Failed(m) =>
      if QuotaLike(m) then
        match retry
        case Fetched(r) => Resolved(r.(isDemo := true))
        case Failed(m2) => Rejected(m2)
      else if KeyLike(m) then Rejected(KeyErrorMessage)
      else Rejected(m)
  }

  /** The endpoints requested, in order: a second request only after a quota-like failure. */
  function Requests(isDemoMode: bool, first: Fetch): (r: seq<string>)
    ensures 1 <= |r| <= 2 && r[0] == Endpoint(isDemoMode)
    ensures |r| == 2 <==> first.Failed? && QuotaLike(first.message)
    ensures |r| == 2 ==> r[1] == DemoEndpoint
  {
    if first.Failed? && QuotaLike(first.message) then [Endpoint(isDemoMode), DemoEndpoint]
    else [Endpoint(isDemoMode)]
  }

  /** `onSuccess`'s toast. */
  function SuccessFor(data: AnalysisResult): (t: Toast)
    ensures t.SuccessToast?
    ensures t.title == DemoTitle <==> data.isDemo
    ensures t.title == PlainTitle <==> !data.isDemo
  {
    var n := NatToString(|data.partners|);
    if data.isDemo then
      SuccessToast(DemoTitle, Concat(["Demo analysis shows ", n,
        " potential partners. Enable OpenAI API for real-time analysis."]))
    else
      SuccessToast(PlainTitle, Concat(["Found ", n, " potential partners for your project."]))
  }

  /** `onError`'s toast: the message, with a Settings action exactly when it mentions "API key". */
  function FailureFor(message: string): (t: Toast)
    ensures t.FailureToast? && t.title == FailureTitle && t.description == message
    ensures t.settingsAction <==> Contains(message, "API key")
  {
    FailureToast(FailureTitle, message, Contains(message, "API key"))
  }

  class Home {
    var isDemoMode: bool
    var analysisResult: Option<AnalysisResult>

    constructor ()
      ensures !isDemoMode && analysisResult == None
    {
      isDemoMode := false;
      analysisResult := None;
    }

    /**
     * One submission: the requests made, the mode switch on a quota-like
     * failure, the stored result on success and the toast shown.
     */
    method Submit(first: Fetch, retry: Fetch) returns (requests: seq<string>, toast: Toast)
      modifies this
      ensures requests == Requests(old(isDemoMode), first)
      ensures isDemoMode == (old(isDemoMode) || (first.Failed? && QuotaLike(first.message)))
      ensures match Mutation(first, retry)
        case Resolved(r) => analysisResult == Some(r) && toast == SuccessFor(r)
        case Rejected(m) => analysisResult == old(analysisResult) && toast == FailureFor(m)
    {
      requests := Requests(isDemoMode, first);
      var outcome := Mutation(first, retry);
      if first.Failed? && QuotaLike(first.message) {
        isDemoMode := true;
      }
      match outcome {
        case Resolved(r) =>
          analysisResult := Some(r);
          toast := SuccessFor(r);
        case Rejected(m) =>
          toast := FailureFor(m);
      }
    }

    /** The demo button flips the mode and touches nothing else. */
    method ToggleDemo()
      modifies this
      ensures isDemoMode == !old(isDemoMode) && analysisResult == old(analysisResult)
    {
      isDemoMode := !isDemoMode;
    }

    /** "New Analysis" clears the shown result; the mode stays. */
    method NewAnalysis()
      modifies this
      ensures analysisResult == None && isDemoMode == old(isDemoMode)
    {
      analysisResult := None;
    }
  }

  /** A message that is quota-like takes the demo path even when it also mentions 401 or "Invalid". */
  lemma QuotaBeforeKey(isDemoMode: bool, m: string, retry: Fetch)
    requires QuotaLike(m) && KeyLike(m)
    ensures Requests(isDemoMode, Failed(m)) == [Endpoint(isDemoMode), DemoEndpoint]
    ensures Mutation(Failed(m), retry)
         == if retry.Fetched? then Resolved(retry.result.(isDemo := true)) else Rejected(retry.message)
  {
  }

  /** Any error mentioning "Invalid", and not quota-like, is reported as the key error, which offers Settings. */
  lemma InvalidReportedAsKey(m: string, retry: Fetch)
    requires !QuotaLike(m) && Contains(m, "Invalid")
    ensures Mutation(Failed(m), retry) == Rejected(KeyErrorMessage)
    ensures FailureFor(KeyErrorMessage).settingsAction
  {
    KeyMessageOffersSettings();
  }

  /** A non-quota message mentioning 401 is reported as the key error as well. */
  lemma AuthReportedAsKey(isDemoMode: bool, m: string, retry: Fetch)
    requires !QuotaLike(m) && Contains(m, "401")
    ensures Mutation(Failed(m), retry) == Rejected(KeyErrorMessage)
    ensures Requests(isDemoMode, Failed(m)) == [Endpoint(isDemoMode)]
  {
  }

  /** When the demo retry fails too, its own error reaches the toast unchanged. */
  lemma FailedRetryRethrown(m: string, m2: string)
    requires QuotaLike(m)
    ensures Mutation(Failed(m), Failed(m2)) == Rejected(m2)
    ensures FailureFor(Mutation(Failed(m), Failed(m2)).message).description == m2
  {
  }

  /** The fixed key message mentions "Invalid", and neither "402" nor "quota". */
  lemma KeyMessageIsPlain()
    ensures Contains(KeyErrorMessage, "Invalid")
    ensures !Contains(KeyErrorMessage, "402") && !Contains(KeyErrorMessage, "quota")
  {
    ContainsAt(KeyErrorMessage, "Invalid", 0);
    var head, tail := "Invalid OpenAI " + "API key", KeyErrorTail;
    KeyHeadPlain();
    KeyTailPlain();
    assert KeyErrorMessage == head + tail;
    PlainConcat(head, tail);
    NotContainsWithoutHead(KeyErrorMessage, "402");
    NotContainsWithoutHead(KeyErrorMessage, "quota");
  }

  lemma KeyHeadPlain() ensures Plain("Invalid OpenAI " + "API key") { }

  lemma KeyTailPlain()
    ensures Plain(KeyErrorTail)
  {
    TailPiecesPlain();
    PlainConcat(". Please provide a valid ", "API key in Settings ");
    PlainConcat(". Please provide a valid " + "API key in Settings ", "to enable AI analysis.");
  }

  lemma TailPiecesPlain()
    ensures Plain(". Please provide a valid ") && Plain("API key in Settings ") && Plain("to enable AI analysis.")
  {
    PiecePlain(". Please provide a valid ");
    PiecePlain("API key in Settings ");
    PiecePlain("to enable AI analysis.");
  }

  /** A short text with neither '4' nor 'q', checked one character at a time. */
  lemma {:induction false} PiecePlain(s: string)
    requires forall i :: 0 <= i < |s| ==> s[i] != '4' && s[i] != 'q'
    ensures Plain(s)
  {
  }

  lemma PlainConcat(a: string, b: string)
    requires Plain(a) && Plain(b)
    ensures Plain(a + b)
  {
  }

  /** The fixed key message mentions "API key". */
  lemma KeyMessageOffersSettings()
    ensures Contains(KeyErrorMessage, "API key")
  {
    ContainsInfix("Invalid OpenAI ", "API key", KeyErrorTail);
  }

  /** An error that is neither quota-like nor key-like reaches the toast unchanged, and one request was made. */
  lemma OtherErrorsRethrown(isDemoMode: bool, m: string, retry: Fetch)
    requires !QuotaLike(m) && !KeyLike(m)
    ensures Mutation(Failed(m), retry) == Rejected(m)
    ensures Requests(isDemoMode, Failed(m)) == [Endpoint(isDemoMode)]
  {
  }

  /** A successful fallback always shows the demo toast, whatever the retry's body says about `isDemo`. */
  lemma FallbackShowsDemoToast(m: string, r: AnalysisResult)
    requires QuotaLike(m)
    ensures Mutation(Failed(m), Fetched(r)).Resolved?
    ensures SuccessFor(Mutation(Failed(m), Fetched(r)).result).title == DemoTitle
  {
  }

  /** The success toast counts the partners in decimal. */
  lemma SuccessCountsPartners(data: AnalysisResult)
    ensures !data.isDemo ==>
      SuccessFor(data).description == "Found " + NatToString(|data.partners|) + " potential partners for your project."
  {
    var n, tail := NatToString(|data.partners|), " potential partners for your project.";
    assert Concat([tail]) == tail by { assert [tail][1..] == []; }
    assert Concat([n, tail]) == n + tail by { assert [n, tail][1..] == [tail]; }
    assert ["Found ", n, tail][1..] == [n, tail];
  }
}
