/** JavaScript's `String.prototype.includes` and the two tests the page builds on it:
    the email validator and the "webhook is configured" predicate. */
module Strings {

  /** `needle` occurs in `s` starting at index `i`. */
  predicate OccursAt(s: string, needle: string, i: int) {
    0 <= i && i + |needle| <= |s| && s[i..i + |needle|] == needle
  }

  predicate StartsWith(s: string, prefix: string) {
    |prefix| <= |s| && s[..|prefix|] == prefix
  }

  /** `s.includes(needle)`: scans `s` from the left for a position where `needle` starts. */
  function Includes(s: string, needle: string): bool
    decreases |s|
  {
    StartsWith(s, needle) || (s != [] && Includes(s[1..], needle))
  }

  /** Every occurrence of `needle` is found by the scan. */
  lemma {:induction false} OccurrenceIsFound(s: string, needle: string, i: int)
    requires OccursAt(s, needle, i)
    ensures Includes(s, needle)
    decreases i
  {
    if i == 0 {
      assert StartsWith(s, needle);
    } else {
      assert s[1..][i - 1..i - 1 + |needle|] == s[i..i + |needle|];
      OccurrenceIsFound(s[1..], needle, i - 1);
    }
  }

  /** Whatever the scan finds is an occurrence: it returns the index where `needle` starts. */
  lemma {:induction false} FoundIsOccurrence(s: string, needle: string) returns (i: int)
    requires Includes(s, needle)
    ensures OccursAt(s, needle, i)
    decreases |s|
  {
    if StartsWith(s, needle) {
      i := 0;
    } else {
      var j := FoundIsOccurrence(s[1..], needle);
      assert s[1..][j..j + |needle|] == s[j + 1..j + 1 + |needle|];
      i := j + 1;
    }
  }

  /** The scan finds `needle` exactly when `needle` occurs somewhere in `s`. */
  lemma IncludesIff(s: string, needle: string)
    ensures Includes(s, needle) <==> exists i :: OccursAt(s, needle, i)
  {
    if Includes(s, needle) {
      var i := FoundIsOccurrence(s, needle);
    }
    forall i | OccursAt(s, needle, i) ensures Includes(s, needle) {
      OccurrenceIsFound(s, needle, i);
    }
  }

  /** Searching for a one-character string is a membership test. */
  lemma IncludesChar(s: string, c: char)
    ensures Includes(s, [c]) <==> c in s
  {
    IncludesIff(s, [c]);
    if c in s {
      var i :| 0 <= i < |s| && s[i] == c;
      assert OccursAt(s, [c], i);
    }
    if Includes(s, [c]) {
      var i :| OccursAt(s, [c], i);
      assert s[i] == s[i..i + 1][0] == c;
    }
  }

  /** A needle with a character that `s` lacks is never found in `s`. */
  lemma {:induction false} MissingCharExcludes(s: string, needle: string, k: nat)
    requires k < |needle| && needle[k] !in s
    ensures !Includes(s, needle)
    decreases |s|
  {
    if |needle| <= |s| {
      assert s[..|needle|][k] == s[k] != needle[k];
    }
    if s != [] {
      MissingCharExcludes(s[1..], needle, k);
    }
  }

  // ---------------------------------------------------------------- email validation

  /** The validator of the check-in form: a submitted email must be non-empty and contain '@'.
      This is a plain substring test, not address validation. */
  predicate IsValidEmail(email: string) {
    email != "" && Includes(email, "@")
  }

  /** The validator accepts exactly the strings that contain '@'; its non-emptiness test
      never rejects anything the '@' test accepts. */
  lemma ValidEmailIff(email: string)
    ensures IsValidEmail(email) <==> '@' in email
  {
    IncludesChar(email, '@');
  }

  // ---------------------------------------------------------------- webhook configuration

  /** The marker left in the webhook URL of a copy that has not been set up. */
  const Placeholder: string := "YOUR_DEPLOYMENT_ID"

  /** The webhook URL shipped in constants.ts, one literal there; it is written here in
      pieces only so that the verifier can inspect its characters. */
  const GoogleScriptUrl: string :=
    "https://script.google.com" + "/macros/s/" + "AKfycbxIMOV23va8FoYs"
    + "PRRuu4hSlxs9_ucVfkWt" + "OdmUAhk3BI3Azf1GkJvb" + "zOHMpvUV843pHA/exec"

  /** The backend counts as configured when its URL is non-empty and free of the placeholder. */
  predicate IsBackendConfigured(url: string) {
    url != "" && !Includes(url, Placeholder)
  }

  /** Configured means: non-empty, and the placeholder occurs nowhere in the URL. */
  lemma ConfiguredIff(url: string)
    ensures IsBackendConfigured(url) <==> url != "" && forall i :: !OccursAt(url, Placeholder, i)
  {
    IncludesIff(url, Placeholder);
  }

  /** The shipped URL has no 'D', a letter of the placeholder (the verifier reads this off the
      pieces of the literal). */
  lemma ShippedUrlLacksD()
    ensures 'D' !in GoogleScriptUrl
  {
  }

  /** The URL shipped with the repository is a configured one, so the webhook POST is attempted. */
  lemma ShippedUrlConfigured()
    ensures IsBackendConfigured(GoogleScriptUrl)
  {
    ShippedUrlLacksD();
    assert Placeholder[5] == 'D';
    MissingCharExcludes(GoogleScriptUrl, Placeholder, 5);
  }
}
