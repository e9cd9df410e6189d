/**
 * `CompanyNumberExtractor.extractFromUri`: a blank check followed by one
 * `Matcher.find()` of the pattern `(?<=company/)([a-zA-Z0-9]{6,10})(?=/.*)`.
 * The regular expression is stated as the predicate `MatchAt`, and the
 * engine's leftmost scan as the recursive function `FindFrom`.
 */
module CompanyNumberExtractor {
  import opened Wrappers
  import opened Events

  /** The text the lookbehind `(?<=company/)` requires before the number. */
  const Lookbehind: string := "company/"
  const MinLength: nat := 6
  const MaxLength: nat := 10

  const NullEmptyUri: string := "Could not extract company number from empty or null resource uri"
  const ExtractionError: string := "Could not extract company number from resource URI: "

  /** The character class `[a-zA-Z0-9]`. */
  predicate IsAlnum(c: char) {
    ('a' <= c <= 'z') || ('A' <= c <= 'Z') || ('0' <= c <= '9')
  }

  predicate AllAlnum(s: string) {
    forall k :: 0 <= k < |s| ==> IsAlnum(s[k])
  }

  /** Every character of `uri` from `from` up to, not including, `to` is a letter or digit. */
  predicate AlnumBetween(uri: string, from: nat, to: nat) {
    forall k :: from <= k < to && k < |uri| ==> IsAlnum(uri[k])
  }

  /**
   * `Character.isWhitespace`: the ASCII controls TAB..CR and FS..US, the space,
   * and the Unicode space, line and paragraph separators other than the
   * non-breaking ones (U+00A0, U+2007, U+202F).
   */
  predicate IsWhitespace(c: char) {
    c == ' ' || ('\t' <= c <= '\r') || ('\U{1C}' <= c <= '\U{1F}')
    || c == '\U{1680}' || ('\U{2000}' <= c <= '\U{2006}') || ('\U{2008}' <= c <= '\U{200A}')
    || c == '\U{2028}' || c == '\U{2029}' || c == '\U{205F}' || c == '\U{3000}'
  }

  /** `StringUtils.hasText`: not null, and some character is not whitespace. */
  predicate HasText(uri: Option<string>)
    ensures HasText(uri) ==> uri.Some? && uri.value != []
    ensures uri.Some? && uri.value != [] && !IsWhitespace(uri.value[0]) ==> HasText(uri)
  {
    uri.Some? && exists k :: 0 <= k < |uri.value| && !IsWhitespace(uri.value[k])
  }

  /**
   * The pattern matches `uri` with the company number `uri[i..i + n]`: it is
   * preceded by "company/", is 6 to 10 letters or digits, and is followed by "/".
   */
  predicate MatchAt(uri: string, i: nat, n: nat)
    ensures MatchAt(uri, i, n) ==> |Lookbehind| <= i && i + n < |uri| && uri[i - |Lookbehind|..i + n + 1] == Lookbehind + uri[i..i + n] + "/"
    ensures MatchAt(uri, i, n) ==> MinLength <= n <= MaxLength && forall k :: i <= k < i + n ==> uri[k] != '/'
  {
    |Lookbehind| <= i && i + n < |uri| && uri[i - |Lookbehind|..i] == Lookbehind
    && MinLength <= n <= MaxLength && AlnumBetween(uri, i, i + n) && uri[i + n] == '/'
  }

  /** No match of the pattern starts before position `i`. */
  ghost predicate Leftmost(uri: string, i: nat) {
    forall j: nat, n: nat :: j < i ==> !MatchAt(uri, j, n)
  }

  /**
   * The greedy quantifier: the number of consecutive letters or digits
   * starting at `i`, stopping at `limit`.
   */
  function AlnumRun(uri: string, i: nat, limit: nat): (r: nat)
    requires i <= |uri|
    ensures r <= limit && i + r <= |uri|
    ensures AlnumBetween(uri, i, i + r)
    ensures r < limit && i + r < |uri| ==> !IsAlnum(uri[i + r])
    decreases limit
  {
    if limit == 0 || i == |uri| || !IsAlnum(uri[i]) then 0
    else
      1 + AlnumRun(uri, i + 1, limit - 1)
  }

  /** At a given start there is at most one match: the run of letters or digits must end at the "/". */
  lemma MatchLengthUnique(uri: string, i: nat, n: nat)
    requires MatchAt(uri, i, n)
    ensures AlnumRun(uri, i, MaxLength) == n
  {
    RunCoversLettersAndDigits(uri, i, MaxLength, n);
    RunStopsAtOtherCharacter(uri, i, MaxLength, n);
  }

  lemma {:induction false} RunCoversLettersAndDigits(uri: string, i: nat, limit: nat, m: nat)
    requires m <= limit && i + m <= |uri| && AlnumBetween(uri, i, i + m)
    ensures AlnumRun(uri, i, limit) >= m
    decreases m
  {
    if m > 0 {
      RunCoversLettersAndDigits(uri, i + 1, limit - 1, m - 1);
    }
  }

  lemma {:induction false} RunStopsAtOtherCharacter(uri: string, i: nat, limit: nat, m: nat)
    requires i + m < |uri| && !IsAlnum(uri[i + m])
    ensures AlnumRun(uri, i, limit) <= m
    decreases m
  {
    if m > 0 && limit > 0 && IsAlnum(uri[i]) {
      RunStopsAtOtherCharacter(uri, i + 1, limit - 1, m - 1);
    }
  }

  /**
   * The engine's attempt at start position `i`: lookbehind, greedy run, then
   * the lookahead `(?=/.*)`; backtracking to a shorter run can never reach a "/".
   */
  function MatchLengthAt(uri: string, i: nat): (r: Option<nat>)
    requires i <= |uri|
    ensures r.Some? ==> MatchAt(uri, i, r.value)
    ensures r.None? ==> forall n: nat :: !MatchAt(uri, i, n)
  {
    var n := AlnumRun(uri, i, MaxLength);
    if |Lookbehind| <= i && uri[i - |Lookbehind|..i] == Lookbehind
       && MinLength <= n && i + n < |uri| && uri[i + n] == '/'
    then
      RunEndingAtSlashMatches(uri, i, n);
      Some(n)
    else
      assert forall m: nat | MatchAt(uri, i, m) :: false by {
        forall m: nat | MatchAt(uri, i, m) ensures false {
          MatchLengthUnique(uri, i, m);
        }
      }
      None
  }

  lemma RunEndingAtSlashMatches(uri: string, i: nat, n: nat)
    requires i <= |uri| && n == AlnumRun(uri, i, MaxLength)
    requires |Lookbehind| <= i && uri[i - |Lookbehind|..i] == Lookbehind
    requires MinLength <= n && i + n < |uri| && uri[i + n] == '/'
    ensures MatchAt(uri, i, n)
  {
  }

  /** `Matcher.find()`: the leftmost start at or after `i` where the pattern matches, with its length. */
  function FindFrom(uri: string, i: nat): (r: Option<(nat, nat)>)
    requires i <= |uri|
    ensures r.Some? ==> i <= r.value.0 && MatchAt(uri, r.value.0, r.value.1)
    ensures r.Some? ==> forall j: nat, n: nat :: i <= j < r.value.0 ==> !MatchAt(uri, j, n)
    ensures r.None? ==> forall j: nat, n: nat :: i <= j ==> !MatchAt(uri, j, n)
    decreases |uri| - i
  {
    match MatchLengthAt(uri, i)
    case Some(n) => Some((i, n))
    case None =>
      if i == |uri| then None
      else
        var r := FindFrom(uri, i + 1);
        NoMatchHereExtends(uri, i, if r.Some? then r.value.0 else |uri| + 1);
        r
  }

  /** No match at `i` and none from `i + 1` up to `to` means none from `i` up to `to`. */
  lemma NoMatchHereExtends(uri: string, i: nat, to: nat)
    requires forall n: nat :: !MatchAt(uri, i, n)
    requires forall j: nat, n: nat :: i + 1 <= j < to ==> !MatchAt(uri, j, n)
    ensures forall j: nat, n: nat :: i <= j < to ==> !MatchAt(uri, j, n)
  {
  }

  /**
   * `extractFromUri`: a blank or null URI and a URI without a match each raise
   * their own NonRetryable error; otherwise the result is the leftmost match.
   */
  function ExtractFromUri(uri: Option<string>): (r: Result<string, Error>)
    ensures !HasText(uri) ==> r == Failure(NonRetryable(NullEmptyUri))
    ensures HasText(uri) && (forall i: nat, n: nat :: !MatchAt(uri.value, i, n))
            ==> r == Failure(NonRetryable(ExtractionError + uri.value))
    ensures r.Success? <==> HasText(uri) && exists i: nat, n: nat :: MatchAt(uri.value, i, n)
    ensures r.Success? ==> exists i: nat, n: nat :: MatchAt(uri.value, i, n) && Leftmost(uri.value, i)
                                          && r.value == uri.value[i..i + n]
    ensures r.Success? ==> MinLength <= |r.value| <= MaxLength && AllAlnum(r.value)
  {
    if !HasText(uri) then Failure(NonRetryable(NullEmptyUri))
    else
      match FindFrom(uri.value, 0)
      case Some((i, n)) => Success(uri.value[i..i + n])
      case None => Failure(NonRetryable(ExtractionError + uri.value))
  }

  /** Any two leftmost matches are the same match, so the extracted number is determined. */
  lemma LeftmostMatchUnique(uri: string, i: nat, n: nat, j: nat, m: nat)
    requires MatchAt(uri, i, n) && Leftmost(uri, i)
    requires MatchAt(uri, j, m) && Leftmost(uri, j)
    ensures i == j && n == m
  {
    MatchLengthUnique(uri, i, n);
    MatchLengthUnique(uri, j, m);
  }

  /** The extractor returns the number that follows "company/" when it is 6 to 10 characters. */
  lemma ExtractsLeftmostNumber(uri: string, i: nat, n: nat)
    requires MatchAt(uri, i, n) && Leftmost(uri, i)
    ensures ExtractFromUri(Some(uri)) == Success(uri[i..i + n])
  {
    assert IsAlnum(uri[i]) && !IsWhitespace(uri[i]);
    assert HasText(Some(uri));
    var r := ExtractFromUri(Some(uri));
    var j: nat, m: nat :| MatchAt(uri, j, m) && Leftmost(uri, j) && r.value == uri[j..j + m];
    LeftmostMatchUnique(uri, i, n, j, m);
  }

  /** The example resource URI of an officer appointment yields "OC305127". */
  lemma ExtractsFromAppointmentUri()
    ensures ExtractFromUri(Some("company/" + "OC305127" + "/appointments/-0YatipCW4ZL295N9UVFo1TGyW8"))
            == Success("OC305127")
  {
    var head, number, tail := "company/", "OC305127", "/appointments/-0YatipCW4ZL295N9UVFo1TGyW8";
    var uri := head + number + tail;
    assert uri[0..8] == head;
    assert uri[8..16] == number;
    assert uri[16] == tail[0];
    assert MatchAt(uri, 8, 8);
    ExtractsLeftmostNumber(uri, 8, 8);
  }

  /** An empty segment between "company/" and "/" is not a company number. */
  lemma RejectsEmptySegment()
    ensures ExtractFromUri(Some("company//charges"))
            == Failure(NonRetryable(ExtractionError + "company//charges"))
  {
    var uri := "company//charges";
    assert !IsWhitespace(uri[0]);
    forall i: nat, n: nat | MatchAt(uri, i, n) ensures false {
    }
  }

  /** A null, empty or whitespace-only URI raises the "empty or null" error. */
  lemma RejectsBlankUri(uri: Option<string>)
    requires uri.Some? ==> forall k :: 0 <= k < |uri.value| ==> IsWhitespace(uri.value[k])
    ensures ExtractFromUri(uri) == Failure(NonRetryable(NullEmptyUri))
  {
  }
}
