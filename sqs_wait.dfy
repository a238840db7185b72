/** The check that a queue's attributes, read back after an update, agree with
    the attributes that were set, and the wait that repeats that check until
    the changes have propagated (internal/service/sqs/wait.go). */
module SqsWait {
  import opened Common

  const AttributeNamePolicy := "Policy"
  const AttributeNameRedrivePolicy := "RedrivePolicy"
  const AttributeNameKmsDataKeyReusePeriodSeconds := "KmsDataKeyReusePeriodSeconds"

  /** The queue resource's default KMS data key reuse period, in seconds. */
  const DefaultKmsDataKeyReusePeriodSeconds: nat := 300

  // ---------------------------------------------------------------------
  // Decimal rendering of a non-negative integer (strconv.Itoa)
  // ---------------------------------------------------------------------

  predicate IsDigit(c: char)
  {
    '0' <= c <= '9'
  }

  function Digit(d: nat): (c: char)
    requires d < 10
    ensures IsDigit(c) && (c as int) - ('0' as int) == d
  {
    (('0' as int) + d) as char
  }

  /** The shortest decimal numeral of `n`. */
  function Decimal(n: nat): (s: string)
    ensures 1 <= |s|
    ensures forall i :: 0 <= i < |s| ==> IsDigit(s[i])
    ensures |s| > 1 ==> s[0] != '0'
    decreases n
  {
    if n < 10 then [Digit(n)] else Decimal(n / 10) + [Digit(n % 10)]
  }

  /** The number a string of decimal digits denotes. */
  function DecimalValue(s: string): nat
    requires forall i :: 0 <= i < |s| ==> IsDigit(s[i])
  {
    if s == [] then 0
    else
      assert IsDigit(s[|s| - 1]);
      DecimalValue(s[..|s| - 1]) * 10 + ((s[|s| - 1] as int) - ('0' as int))
  }

  /** Reading the numeral back gives the number. */
  lemma {:induction false} DecimalRoundTrip(n: nat)
    ensures DecimalValue(Decimal(n)) == n
    decreases n
  {
    if n >= 10 {
      var s := Decimal(n / 10);
      assert (s + [Digit(n % 10)])[..|s|] == s;
      DecimalRoundTrip(n / 10);
    }
  }

  /** The default reuse period is rendered as "300". */
  lemma DefaultReusePeriodText()
    ensures Decimal(DefaultKmsDataKeyReusePeriodSeconds) == "300"
  {
  }

  // ---------------------------------------------------------------------
  // The attribute matcher
  // ---------------------------------------------------------------------

  /** What `awspolicy.PoliciesAreEquivalent` reports: a verdict, or an error
      (for a policy document it cannot parse). */
  datatype PolicyComparison = Equivalent | NotEquivalent | ComparisonError(message: string)

  /** The two foreign comparisons the matcher relies on, as parameters:
      policy-document equivalence and the JSON-string equivalence used for
      redrive policies. Both take the value read back first. */
  datatype Equivalences = Equivalences(
    policies: (string, string) -> PolicyComparison,
    redrivePolicies: (string, string) -> bool)

  /** Why an attribute read back does not satisfy the expected value. */
  datatype MatchError =
    | NotAvailable(name: string)
    | PolicyComparisonFailed(message: string)
    | PoliciesNotEquivalent
    | RedrivePoliciesNotEquivalent
    | Mismatch(name: string, got: string, expected: string)

  /** The check of one expected attribute `name` with expected value `e`
      against the attributes read back: `None` when it passes, otherwise the
      error the matcher returns for it. */
  function CheckAttribute(name: string, e: string, got: map<string, string>, eq: Equivalences): (r: Option<MatchError>)
    // a missing attribute passes only when the expected value is empty, or is
    // the default KMS data key reuse period; otherwise it is "not available"
    ensures name !in got ==>
      (r.None? <==> e == "" || (name == AttributeNameKmsDataKeyReusePeriodSeconds && e == Decimal(DefaultKmsDataKeyReusePeriodSeconds)))
    ensures name !in got && r.Some? ==> r.value == NotAvailable(name)
    // a policy passes exactly when the documents are equivalent, and a
    // comparison error is the matcher's error
    ensures name in got && name == AttributeNamePolicy ==>
      && (r.None? <==> eq.policies(got[name], e) == Equivalent)
      && (eq.policies(got[name], e).ComparisonError? ==> r == Some(PolicyComparisonFailed(eq.policies(got[name], e).message)))
      && (eq.policies(got[name], e) == NotEquivalent ==> r == Some(PoliciesNotEquivalent))
    ensures name in got && name == AttributeNameRedrivePolicy ==>
      (r.None? <==> eq.redrivePolicies(got[name], e)) && (r.Some? ==> r.value == RedrivePoliciesNotEquivalent)
    // every other attribute needs the very same string
    ensures name in got && name != AttributeNamePolicy && name != AttributeNameRedrivePolicy ==>
      (r.None? <==> got[name] == e) && (r.Some? ==> r.value == Mismatch(name, got[name], e))
  {
    if name !in got then
      if e == "" then None
      else if name == AttributeNameKmsDataKeyReusePeriodSeconds && e == Decimal(DefaultKmsDataKeyReusePeriodSeconds) then None
      else Some(NotAvailable(name))
    else
      var g := got[name];
      if name == AttributeNamePolicy then
        match eq.policies(g, e)
        case ComparisonError(m) => Some(PolicyComparisonFailed(m))
        case NotEquivalent => Some(PoliciesNotEquivalent)
        case Equivalent => None
      else if name == AttributeNameRedrivePolicy then
        if eq.redrivePolicies(g, e) then None else Some(RedrivePoliciesNotEquivalent)
      else if g != e then Some(Mismatch(name, g, e))
      else None
  }

  /** The attributes read back satisfy the expected ones: every expected key
      passes its check. Keys read back that are not expected play no part. */
  ghost predicate AttributesMatch(expected: map<string, string>, got: map<string, string>, eq: Equivalences)
  {
    forall k :: k in expected ==> CheckAttribute(k, expected[k], got, eq).None?
  }

  /** The matcher: a scan over the expected keys that returns the first
      failing key's error. The scan order of a Go map is unspecified, so the
      key is chosen arbitrarily at each step; the verdict does not depend on
      it, the error returned is that of some failing key. */
  method MatchAttributes(expected: map<string, string>, got: map<string, string>, eq: Equivalences)
    returns (r: Option<MatchError>)
    ensures r.None? <==> AttributesMatch(expected, got, eq)
    ensures r.Some? ==> exists k :: k in expected && CheckAttribute(k, expected[k], got, eq) == r
  {
    var remaining := expected.Keys;
    while remaining != {}
      invariant remaining <= expected.Keys
      invariant forall k :: k in expected && k !in remaining ==> CheckAttribute(k, expected[k], got, eq).None?
      decreases remaining
    {
      var k :| k in remaining;
      var err := CheckAttribute(k, expected[k], got, eq);
      if err.Some? {
        return err;
      }
      remaining := remaining - {k};
    }
    return None;
  }

  /** Attributes read back but not expected never make the match fail:
      adding them changes nothing. */
  lemma ExtraAttributesIgnored(expected: map<string, string>, got: map<string, string>, extra: map<string, string>, eq: Equivalences)
    requires forall k :: k in extra ==> k !in expected
    ensures AttributesMatch(expected, got + extra, eq) <==> AttributesMatch(expected, got, eq)
  {
  }

  /** Reading back exactly what was set satisfies the match, provided the two
      equivalences hold of a policy and of a redrive policy compared with
      itself. */
  lemma ReadBackMatches(expected: map<string, string>, got: map<string, string>, eq: Equivalences)
    requires forall k :: k in expected ==> k in got && got[k] == expected[k]
    requires AttributeNamePolicy in expected ==>
      eq.policies(expected[AttributeNamePolicy], expected[AttributeNamePolicy]) == Equivalent
    requires AttributeNameRedrivePolicy in expected ==>
      eq.redrivePolicies(expected[AttributeNameRedrivePolicy], expected[AttributeNameRedrivePolicy])
    ensures AttributesMatch(expected, got, eq)
  {
  }

  /** When nothing is read back, the match holds exactly when each expected
      value is empty or is the default KMS data key reuse period of that key. */
  lemma NothingReadBack(expected: map<string, string>, eq: Equivalences)
    ensures AttributesMatch(expected, map[], eq) <==>
      forall k :: k in expected ==>
        expected[k] == "" || (k == AttributeNameKmsDataKeyReusePeriodSeconds && expected[k] == "300")
  {
  }

  // ---------------------------------------------------------------------
  // The propagation wait
  // ---------------------------------------------------------------------

  /** One read of the queue's attributes. */
  datatype QueueRead = Attributes(attrs: map<string, string>) | ReadFailed(err: ApiError)

  datatype WaitError = ReadError(err: ApiError) | NotPropagated(mismatch: MatchError)

  /** A read that ends the retry: a failed read (not retryable) or attributes
      that match. A read whose attributes mismatch is retried. */
  ghost predicate EndsRetry(read: QueueRead, expected: map<string, string>, eq: Equivalences)
  {
    read.ReadFailed? || AttributesMatch(expected, read.attrs, eq)
  }

  /** `r` is what the wait reports for a read that was checked: the read's
      error, success, or the error of some failing key. */
  ghost predicate ReportsRead(read: QueueRead, expected: map<string, string>, eq: Equivalences, r: Option<WaitError>)
  {
    && (read.ReadFailed? ==> r == Some(ReadError(read.err)))
    && (read.Attributes? ==>
          && (r.None? <==> AttributesMatch(expected, read.attrs, eq))
          && (r.Some? ==>
                && r.value.NotPropagated?
                && exists k :: k in expected && CheckAttribute(k, expected[k], read.attrs, eq) == Some(r.value.mismatch)))
  }

  /** The wait for attribute changes to propagate. `attempts` are the reads
      the retry completes before its deadline passes. The retry reports a
      timeout after a mismatching attempt as that attempt's mismatch error,
      and as a bare timeout only when no attempt completed; only a bare
      timeout leads to `final`, the one further read that is matched once
      more. `readCount` is the number of reads made. */
  method WaitQueueAttributesPropagated(attempts: seq<QueueRead>, final: QueueRead, expected: map<string, string>, eq: Equivalences)
    returns (r: Option<WaitError>, readCount: nat)
    ensures 1 <= readCount
    // every read but the last was a mismatch, so the retry went on
    ensures forall i :: 0 <= i < readCount - 1 && i < |attempts| ==> !EndsRetry(attempts[i], expected, eq)
    // the retry stops at a failed read (reported), a match (success), or the
    // last attempt, whose mismatch is reported; `final` is not read
    ensures |attempts| > 0 ==>
      && readCount <= |attempts|
      && (readCount < |attempts| ==> EndsRetry(attempts[readCount - 1], expected, eq))
      && ReportsRead(attempts[readCount - 1], expected, eq, r)
    // with no attempt completed, exactly one more read and one more match decide
    ensures |attempts| == 0 ==> readCount == 1 && ReportsRead(final, expected, eq, r)
  {
    if |attempts| == 0 {
      readCount := 1;
      if final.ReadFailed? {
        r := Some(ReadError(final.err));
      } else {
        var mismatch := MatchAttributes(expected, final.attrs, eq);
        r := if mismatch.None? then None else Some(NotPropagated(mismatch.value));
      }
      return;
    }
    r := None;
    var i := 0;
    while i < |attempts|
      invariant 0 <= i <= |attempts|
      invariant forall j :: 0 <= j < i ==> !EndsRetry(attempts[j], expected, eq)
      invariant 0 < i ==> ReportsRead(attempts[i - 1], expected, eq, r)
    {
      match attempts[i]
      case ReadFailed(err) =>
        return Some(ReadError(err)), i + 1;
      case Attributes(got) =>
        var mismatch := MatchAttributes(expected, got, eq);
        if mismatch.None? {
          return None, i + 1;
        }
        r := Some(NotPropagated(mismatch.value));
      i := i + 1;
    }
    readCount := |attempts|;
  }
}
