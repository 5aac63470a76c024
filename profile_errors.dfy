/**
 * The profile page's error handling (`app/user/profile/profile-error-utils.ts`):
 * ordered keyword classification of a thrown value, the fixed table of
 * user-facing texts, the automatic-retry cap and the capped exponential
 * back-off.  The random jitter is an input.
 */
module ProfileErrors {
  import opened JsText

  datatype ProfileErrorType = Network | Authentication | Server | Validation | Unknown

  /**
   * A thrown value as the classifier sees it: a string, an `Error` object
   * (name and message), or any other value, carried as its `String(...)` text.
   */
  datatype Thrown =
    | ThrownString(s: string)
    | ThrownError(name: string, message: string)
    | ThrownOther(text: string)

  datatype ProfileError = ProfileError(
    kind: ProfileErrorType,
    message: string,
    retryable: bool,
    userFriendlyMessage: string,
    suggestedAction: string)

  // ---------------------------------------------------------------------------
  // Classification

  predicate AuthWords(m: string) {
    Includes(m, "not authenticated") || Includes(m, "unauthorized") || Includes(m, "401")
  }

  predicate NetworkWords(m: string) {
    Includes(m, "network") || Includes(m, "fetch") || Includes(m, "connection") || Includes(m, "timeout")
  }

  predicate ServerWords(m: string) {
    Includes(m, "server") || Includes(m, "internal") || Includes(m, "500") || Includes(m, "502") || Includes(m, "503")
  }

  predicate ValidationWords(m: string) {
    Includes(m, "validation") || Includes(m, "invalid") || Includes(m, "400")
  }

  /** The string cascade, on an already lower-cased message. */
  function ClassifyMessage(m: string): ProfileErrorType {
    if AuthWords(m) then Authentication
    else if NetworkWords(m) then Network
    else if ServerWords(m) then Server
    else if ValidationWords(m) then Validation
    else Unknown
  }

  /** The `Error` object rules, on the lower-cased name and message. */
  function ClassifyErrorObject(name: string, message: string): ProfileErrorType {
    if Includes(name, "network") || Includes(message, "fetch") then Network
    else if Includes(name, "auth") || Includes(message, "unauthorized") then Authentication
    else Unknown
  }

  /**
   * `determineProfileErrorType`: a string is matched case-insensitively in the
   * order authentication, network, server, validation; an `Error` object by
   * name and message, network first; anything unmatched is unknown.
   */
  function DetermineProfileErrorType(e: Thrown): (r: ProfileErrorType)
    ensures e.ThrownString? ==> (r == Authentication <==> AuthWords(Lower(e.s)))
    ensures e.ThrownString? ==> (r == Network <==> !AuthWords(Lower(e.s)) && NetworkWords(Lower(e.s)))
    ensures e.ThrownString? ==>
      (r == Server <==> !AuthWords(Lower(e.s)) && !NetworkWords(Lower(e.s)) && ServerWords(Lower(e.s)))
    ensures e.ThrownString? ==>
      (r == Validation <==>
        !AuthWords(Lower(e.s)) && !NetworkWords(Lower(e.s)) && !ServerWords(Lower(e.s)) && ValidationWords(Lower(e.s)))
    ensures e.ThrownString? ==>
      (r == Unknown <==>
        !AuthWords(Lower(e.s)) && !NetworkWords(Lower(e.s)) && !ServerWords(Lower(e.s)) && !ValidationWords(Lower(e.s)))
    ensures e.ThrownError? ==>
      (r == Network <==> Includes(Lower(e.name), "network") || Includes(Lower(e.message), "fetch"))
    ensures e.ThrownError? ==>
      (r == Authentication <==>
        !(Includes(Lower(e.name), "network") || Includes(Lower(e.message), "fetch")) &&
        (Includes(Lower(e.name), "auth") || Includes(Lower(e.message), "unauthorized")))
    ensures e.ThrownError? ==> (r == Unknown <==> r != Network && r != Authentication)
    ensures e.ThrownOther? ==> r == Unknown
  {
    match e
    case ThrownString(s) => ClassifyMessage(Lower(s))
    case ThrownError(name, message) => ClassifyErrorObject(Lower(name), Lower(message))
    case ThrownOther(_) => Unknown
  }

  /** String classification ignores letter case. */
  lemma ClassificationIgnoresCase(s: string)
    ensures DetermineProfileErrorType(ThrownString(Upper(s))) == DetermineProfileErrorType(ThrownString(s))
    ensures DetermineProfileErrorType(ThrownString(Lower(s))) == DetermineProfileErrorType(ThrownString(s))
  {
    LowerOfUpper(s);
    LowerIdempotent(s);
  }

  /** A keyword without capital letters found in a text is found in its lower-cased form. */
  lemma {:induction false} IncludesLower(s: string, sub: string)
    requires Includes(s, sub) && Lower(sub) == sub
    ensures Includes(Lower(s), sub)
  {
    var i := IncludesWitness(s, sub);
    assert Lower(s)[i..i + |sub|] == sub by {
      forall k | 0 <= k < |sub|
        ensures Lower(s)[i..i + |sub|][k] == sub[k]
      {
        assert s[i..i + |sub|][k] == s[i + k];
        assert Lower(sub)[k] == LowerChar(sub[k]);
        assert LowerChar(s[i + k]) == LowerChar(sub[k]);
      }
    }
    IncludesAt(Lower(s), sub, i);
  }

  /** A message mentioning 401 is an authentication error, whatever else it mentions. */
  lemma Mentions401IsAuthentication(s: string)
    requires Includes(s, "401")
    ensures DetermineProfileErrorType(ThrownString(s)) == Authentication
  {
    assert Lower("401") == "401";
    IncludesLower(s, "401");
  }

  /** So "401" together with "network" is classified as authentication, not network. */
  lemma AuthenticationBeforeNetwork()
    ensures DetermineProfileErrorType(ThrownString("401 network error")) == Authentication
  {
    assert "401 network error"[0..3] == "401";
    IncludesAt("401 network error", "401", 0);
    Mentions401IsAuthentication("401 network error");
  }

  /** An `Error` whose name mentions network is a network error even if its message says unauthorized. */
  lemma NetworkNameBeforeAuth(name: string, message: string)
    requires Includes(name, "network")
    ensures DetermineProfileErrorType(ThrownError(name, message)) == Network
  {
    assert Lower("network") == "network";
    IncludesLower(name, "network");
  }

  // ---------------------------------------------------------------------------
  // The error table

  datatype ErrorConfig = ErrorConfig(retryable: bool, userFriendlyMessage: string, suggestedAction: string)

  /** The fixed per-type texts and retry flags. */
  function ConfigFor(t: ProfileErrorType): (c: ErrorConfig)
    ensures c.retryable <==> t in {Network, Server, Unknown}
    ensures |c.userFriendlyMessage| > 0 && |c.suggestedAction| > 0
  {
    match t
    case Network => ErrorConfig(true,
      "Unable to connect to the server. Please check your internet connection.",
      "Check your internet connection and try again.")
    case Authentication => ErrorConfig(false,
      "You need to be logged in to view your profile.",
      "Please sign in to continue.")
    case Server => ErrorConfig(true,
      "Our servers are experiencing issues. Please try again in a few moments.",
      "Wait a moment and try again.")
    case Validation => ErrorConfig(false,
      "There was an issue with your profile data.",
      "Please check your information and try again.")
    case Unknown => ErrorConfig(true,
      "An unexpected error occurred while loading your profile.",
      "Please try again or contact support if the problem persists.")
  }

  /** The text `createProfileError` keeps: the `Error`'s message, or `String(e)`. */
  function OriginalMessage(e: Thrown): string {
    match e
    case ThrownString(s) => s
    case ThrownError(_, message) => message
    case ThrownOther(text) => text
  }

  /** `createProfileError`: the classified type, its table entry and the original message. */
  function CreateProfileError(e: Thrown): (r: ProfileError)
    ensures r.kind == DetermineProfileErrorType(e)
    ensures r.retryable <==> r.kind in {Network, Server, Unknown}
    ensures r.message == OriginalMessage(e)
    ensures e.ThrownError? ==> r.message == e.message
    ensures r.userFriendlyMessage == ConfigFor(r.kind).userFriendlyMessage
    ensures r.suggestedAction == ConfigFor(r.kind).suggestedAction
  {
    var t := DetermineProfileErrorType(e);
    var c := ConfigFor(t);
    ProfileError(t, OriginalMessage(e), c.retryable, c.userFriendlyMessage, c.suggestedAction)
  }

  // ---------------------------------------------------------------------------
  // Retry policy

  const MaxRetries := 2

  /** `shouldAutoRetry`: below the cap, and only for retryable network or server errors. */
  function ShouldAutoRetry(err: ProfileError, retryCount: int): (r: bool)
    ensures retryCount >= MaxRetries ==> !r
    ensures r <==> retryCount < MaxRetries && err.retryable && err.kind in {Network, Server}
  {
    if retryCount >= MaxRetries then false
    else err.retryable && (err.kind == Network || err.kind == Server)
  }

  /** For an error built by `CreateProfileError` the retry flag adds nothing: it is the type and the count. */
  lemma AutoRetryOfCreated(e: Thrown, retryCount: int)
    ensures ShouldAutoRetry(CreateProfileError(e), retryCount) <==>
      retryCount < MaxRetries && DetermineProfileErrorType(e) in {Network, Server}
  {
  }

  /** Unknown errors are retryable by hand but never retried automatically. */
  lemma UnknownNeverAutoRetried(e: Thrown, retryCount: int)
    requires DetermineProfileErrorType(e) == Unknown
    ensures CreateProfileError(e).retryable
    ensures !ShouldAutoRetry(CreateProfileError(e), retryCount)
  {
  }

  // ---------------------------------------------------------------------------
  // Back-off

  const BaseDelayMs := 1000
  const MaxDelayMs := 10000

  function Pow2(n: nat): (p: nat)
    ensures p >= 1
  {
    if n == 0 then 1 else 2 * Pow2(n - 1)
  }

  lemma {:induction false} Pow2Monotone(m: nat, n: nat)
    requires m <= n
    ensures Pow2(m) <= Pow2(n)
    decreases n
  {
    if m < n {
      Pow2Monotone(m, n - 1);
    }
  }

  /** min(1000 * 2^n, 10000): 1, 2, 4 and 8 seconds, then 10 seconds from the fifth retry on. */
  function CappedDelay(retryCount: nat): (d: nat)
    ensures BaseDelayMs <= d <= MaxDelayMs
    ensures retryCount >= 4 ==> d == MaxDelayMs
    ensures retryCount < 4 ==> d == BaseDelayMs * Pow2(retryCount)
  {
    if retryCount >= 4 then
      Pow2Monotone(4, retryCount);
      assert Pow2(4) == 16;
      MaxDelayMs
    else
      assert Pow2(retryCount) <= 8 by {
        Pow2Monotone(retryCount, 3);
      }
      BaseDelayMs * Pow2(retryCount)
  }

  /** The capped delay never shrinks as the retry count grows. */
  lemma CappedDelayMonotone(m: nat, n: nat)
    requires m <= n
    ensures CappedDelay(m) <= CappedDelay(n)
  {
    if n < 4 {
      Pow2Monotone(m, n);
    }
  }

  /**
   * `getRetryDelay` with the value of `Math.random()` as `random` (in [0, 1)):
   * the capped delay plus up to 30 % of it.
   */
  function GetRetryDelay(retryCount: nat, random: real): (r: real)
    requires 0.0 <= random < 1.0
    ensures CappedDelay(retryCount) as real <= r < 1.3 * CappedDelay(retryCount) as real
    ensures retryCount >= 4 ==> 10000.0 <= r < 13000.0
  {
    var delay := CappedDelay(retryCount) as real;
    JitterBelow(random, delay);
    delay + random * 0.3 * delay
  }

  /** A draw in [0, 1) adds less than 30 % to a positive delay. */
  lemma JitterBelow(random: real, delay: real)
    requires 0.0 <= random < 1.0 && delay > 0.0
    ensures delay <= delay + random * 0.3 * delay < 1.3 * delay
  {
    assert random * delay < 1.0 * delay;
    assert random * 0.3 * delay == 0.3 * (random * delay);
    assert 1.3 * delay == delay + 0.3 * delay;
  }
}
