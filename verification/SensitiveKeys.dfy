/** Which keys are sensitive, and what hiding by them comes to. */
module SensitiveKeys {
  import opened Text
  import R = Redact

  const SECRET_PATTERNS := [
    "password", "passwd", "secret", "token", "apikey", "api_key", "accesskey", "privatekey", "private_key",
    "credential", "authorization", "cookie", "session", "signature", "mnemonic", "seedphrase",
    "claimtoken", "claim_token"
  ]

  const PERSONAL_PATTERNS := [
    "email", "phone", "tel", "address", "postalcode", "zip", "birth", "card", "cardnumber", "cvv", "iban",
    "databaseurl", "database_url", "connectionstring"
  ]

  const SENSITIVE_KEY_PATTERNS := SECRET_PATTERNS + PERSONAL_PATTERNS

  predicate IsSeparator(c: char) {
    c == '-' || c == '_' || IsWhitespace(c)
  }

  function WithoutSeparators(s: string): (r: string)
    ensures |r| <= |s|
  {
    if s == "" then "" else (if IsSeparator(s[0]) then "" else [s[0]]) + WithoutSeparators(s[1..])
  }

  /** The form in which keys are compared: lower case, separators dropped. */
  function Normalized(key: string): string {
    WithoutSeparators(ToLower(key))
  }

  predicate OccursAt(s: string, part: string, i: nat) {
    i + |part| <= |s| && s[i..i + |part|] == part
  }

  predicate Includes(s: string, part: string) {
    exists i :: 0 <= i <= |s| && OccursAt(s, part, i)
  }

  /** On a normalized key. */
  predicate IsSensitiveForm(s: string) {
    exists k :: 0 <= k < |SENSITIVE_KEY_PATTERNS| && Includes(s, WithoutSeparators(SENSITIVE_KEY_PATTERNS[k]))
  }

  predicate IsSensitiveKey(key: string) {
    IsSensitiveForm(Normalized(key))
  }

  // --- however a key is written ---------------------------------------------------------

  lemma {:induction false} DroppingIsPiecewise(a: string, b: string)
    ensures WithoutSeparators(a + b) == WithoutSeparators(a) + WithoutSeparators(b)
    decreases |a|
  {
    if a == "" {
      assert a + b == b;
    } else {
      var first := if IsSeparator(a[0]) then "" else [a[0]];
      assert (a + b)[0] == a[0] && (a + b)[1..] == a[1..] + b;
      DroppingIsPiecewise(a[1..], b);
      assert WithoutSeparators(a + b) == first + WithoutSeparators(a[1..] + b);
      assert first + (WithoutSeparators(a[1..]) + WithoutSeparators(b)) == (first + WithoutSeparators(a[1..])) + WithoutSeparators(b);
    }
  }

  lemma NormalizingIsPiecewise(a: string, b: string)
    ensures Normalized(a + b) == Normalized(a) + Normalized(b)
  {
    assert ToLower(a + b) == ToLower(a) + ToLower(b);
    DroppingIsPiecewise(ToLower(a), ToLower(b));
  }

  lemma SeparatorsAreDropped(separator: char)
    requires IsSeparator(separator)
    ensures Normalized([separator]) == ""
  {
    assert ToLower([separator]) == [separator];
  }

  /** Neither separators put anywhere nor the case of the letters make a difference. */
  lemma SpellingDoesNotMatter(before: string, separator: char, after: string)
    requires separator == '-' || separator == '_' || IsWhitespace(separator)
    ensures Normalized(before + [separator] + after) == Normalized(before + after)
    ensures Normalized(ToUpper(before)) == Normalized(before)
  {
    NormalizingIsPiecewise(before + [separator], after);
    NormalizingIsPiecewise(before, [separator]);
    NormalizingIsPiecewise(before, after);
    SeparatorsAreDropped(separator);
    assert ToLower(ToUpper(before)) == ToLower(before);
  }

  lemma IncludingIsFurther(s: string, part: string, before: string, after: string)
    requires Includes(s, part)
    ensures Includes(before + s + after, part)
  {
    var i :| 0 <= i <= |s| && OccursAt(s, part, i);
    var t := before + s + after;
    assert t[|before| + i..|before| + i + |part|] == s[i..i + |part|];
    assert OccursAt(t, part, |before| + i);
  }

  lemma LongerFormsAreSensitiveToo(s: string, before: string, after: string)
    requires IsSensitiveForm(s)
    ensures IsSensitiveForm(before + s + after)
  {
    var k :| 0 <= k < |SENSITIVE_KEY_PATTERNS| && Includes(s, WithoutSeparators(SENSITIVE_KEY_PATTERNS[k]));
    IncludingIsFurther(s, WithoutSeparators(SENSITIVE_KEY_PATTERNS[k]), before, after);
  }

  /** A longer key that contains a sensitive one is sensitive. */
  lemma LongerKeysAreSensitiveToo(before: string, key: string, after: string)
    requires IsSensitiveKey(key)
    ensures IsSensitiveKey(before + key + after)
  {
    NormalizingIsPiecewise(before + key, after);
    NormalizingIsPiecewise(before, key);
    LongerFormsAreSensitiveToo(Normalized(key), Normalized(before), Normalized(after));
  }

  // --- the keys of a shown error --------------------------------------------------------

  /** A pattern with a letter the key lacks cannot be part of it. */
  lemma MissingLetter(s: string, part: string, j: nat)
    requires j < |part| && part[j] !in s
    ensures !Includes(s, part)
  {
    forall i | 0 <= i <= |s|
      ensures !OccursAt(s, part, i)
    {
      if i + |part| <= |s| {
        assert s[i..i + |part|][j] == s[i + j];
      }
    }
  }

  /** A letter that neither "name" nor "message" has. */
  predicate Foreign(c: char) {
    IsLower(c) && c !in "namesg"
  }

  predicate ForeignEarly(s: string) {
    exists j :: 0 <= j < |s| && j < 5 && Foreign(s[j])
  }

  lemma SecretPatternsHaveAForeignLetter(k: nat)
    requires k < |SECRET_PATTERNS|
    ensures ForeignEarly(SECRET_PATTERNS[k])
  {
    var s := SECRET_PATTERNS[k];
    assert Foreign(s[0]) || Foreign(s[1]) || Foreign(s[2]) || Foreign(s[3]) || Foreign(s[4]);
  }

  lemma PersonalPatternsHaveAForeignLetter(k: nat)
    requires k < |PERSONAL_PATTERNS|
    ensures ForeignEarly(PERSONAL_PATTERNS[k])
  {
    var s := PERSONAL_PATTERNS[k];
    assert Foreign(s[0]) || Foreign(s[1]) || Foreign(s[2]) || Foreign(s[3]);
  }

  lemma {:induction false} LettersAreKept(s: string, j: nat) returns (i: nat)
    requires j < |s| && !IsSeparator(s[j])
    ensures i < |WithoutSeparators(s)| && WithoutSeparators(s)[i] == s[j]
    decreases |s|
  {
    if j == 0 {
      i := 0;
    } else {
      i := LettersAreKept(s[1..], j - 1);
      if !IsSeparator(s[0]) {
        i := i + 1;
      }
    }
  }

  lemma FormsOfForeignLettersAreOpen(s: string)
    requires forall c :: c in s ==> c in "namesg"
    ensures !IsSensitiveForm(s)
  {
    forall k | 0 <= k < |SENSITIVE_KEY_PATTERNS|
      ensures !Includes(s, WithoutSeparators(SENSITIVE_KEY_PATTERNS[k]))
    {
      var p := SENSITIVE_KEY_PATTERNS[k];
      if k < |SECRET_PATTERNS| {
        SecretPatternsHaveAForeignLetter(k);
      } else {
        PersonalPatternsHaveAForeignLetter(k - |SECRET_PATTERNS|);
      }
      var j :| 0 <= j < |p| && j < 5 && Foreign(p[j]);
      var i := LettersAreKept(p, j);
      MissingLetter(s, WithoutSeparators(p), i);
    }
  }

  lemma ErrorKeysAreOpen()
    ensures !IsSensitiveKey("name") && !IsSensitiveKey("message")
  {
    assert ToLower("name") == "name" && ToLower("message") == "message";
    KeepsPlain("name");
    KeepsPlain("message");
    FormsOfForeignLettersAreOpen("name");
    FormsOfForeignLettersAreOpen("message");
  }

  lemma {:induction false} KeepsPlain(s: string)
    requires forall c :: c in s ==> !IsSeparator(c)
    ensures WithoutSeparators(s) == s
    decreases |s|
  {
    if s != "" {
      KeepsPlain(s[1..]);
      assert s == [s[0]] + s[1..];
    }
  }

  // --- hiding by these keys -------------------------------------------------------------

  /**
   What is logged: every sensitive key holds only the mark, nothing that stood under one has any
   influence, and a second pass changes nothing but errors shown at the last depth.
   */
  lemma LoggedValuesAreMasked(v: R.Value, w: R.Value)
    ensures R.Masked(IsSensitiveKey, R.Redacted(IsSensitiveKey, v, 0))
    ensures R.SameOutside(IsSensitiveKey, v, w) ==> R.Redacted(IsSensitiveKey, v, 0) == R.Redacted(IsSensitiveKey, w, 0)
    ensures R.Redacted(IsSensitiveKey, R.Redacted(IsSensitiveKey, v, 0), 0) == R.Redacted(IsSensitiveKey, v, 0)
            <==> !R.ErrorAtTheLimit(IsSensitiveKey, v, 0)
  {
    ErrorKeysAreOpen();
    R.OutputIsMasked(IsSensitiveKey, v, 0);
    R.SecondPassChangesNothingExactlyWhen(IsSensitiveKey, v, 0);
    if R.SameOutside(IsSensitiveKey, v, w) {
      R.SecretsDoNotShow(IsSensitiveKey, v, w, 0);
    }
  }

  // --- the keys themselves --------------------------------------------------------------

  lemma IncludesItself(s: string)
    ensures Includes(s, s)
  {
    assert s[0..|s|] == s;
    assert OccursAt(s, s, 0);
  }

  predicate IsPlain(s: string) {
    forall i :: 0 <= i < |s| ==> !IsUpper(s[i])
  }

  lemma PlainIsLower(s: string)
    requires IsPlain(s)
    ensures ToLower(s) == s
  {
  }

  lemma SecretPatternsArePlain()
    ensures forall k :: 0 <= k < |SECRET_PATTERNS| ==> IsPlain(SECRET_PATTERNS[k])
  {
  }

  lemma PersonalPatternsArePlain()
    ensures forall k :: 0 <= k < |PERSONAL_PATTERNS| ==> IsPlain(PERSONAL_PATTERNS[k])
  {
  }

  lemma PatternsAreSensitive(k: nat)
    requires k < |SENSITIVE_KEY_PATTERNS|
    ensures IsSensitiveKey(SENSITIVE_KEY_PATTERNS[k])
  {
    SecretPatternsArePlain();
    PersonalPatternsArePlain();
    var p := SENSITIVE_KEY_PATTERNS[k];
    assert IsPlain(p) by {
      if k < |SECRET_PATTERNS| {
        assert p == SECRET_PATTERNS[k];
      } else {
        assert p == PERSONAL_PATTERNS[k - |SECRET_PATTERNS|];
      }
    }
    PlainIsLower(p);
    IncludesItself(WithoutSeparators(p));
  }

  lemma SecretsAreListed(key: string)
    requires key in ["password", "passwd", "secret", "token", "apikey", "accesskey", "privatekey", "credential",
                     "authorization", "cookie", "session", "signature", "mnemonic", "seedphrase", "claimtoken"]
    ensures key in SECRET_PATTERNS
  {
  }

  lemma PersonalDataIsListed(key: string)
    requires key in ["email", "phone", "tel", "address", "postalcode", "zip", "birth", "card", "cvv", "iban",
                     "databaseurl", "connectionstring"]
    ensures key in PERSONAL_PATTERNS
  {
  }

  lemma PlaceInBoth(a: seq<string>, b: seq<string>, key: string) returns (k: nat)
    requires key in a || key in b
    ensures k < |a + b| && (a + b)[k] == key
  {
    if key in a {
      k :| 0 <= k < |a| && a[k] == key;
    } else {
      var j :| 0 <= j < |b| && b[j] == key;
      k := |a| + j;
    }
  }

  lemma ListedIsSensitive(key: string)
    requires key in SECRET_PATTERNS || key in PERSONAL_PATTERNS
    ensures IsSensitiveKey(key)
  {
    var k := PlaceInBoth(SECRET_PATTERNS, PERSONAL_PATTERNS, key);
    PatternsAreSensitive(k);
  }

  /** Secrets stay hidden, whatever stands around such a word in a key, and in capitals as well. */
  lemma SecretKeysAreSensitive(before: string, key: string, after: string)
    requires key in ["password", "passwd", "secret", "token", "apikey", "accesskey", "privatekey", "credential",
                     "authorization", "cookie", "session", "signature", "mnemonic", "seedphrase", "claimtoken"]
    ensures IsSensitiveKey(before + key + after) && IsSensitiveKey(ToUpper(before + key + after))
  {
    SecretsAreListed(key);
    SensitiveHowever(before, key, after);
  }

  /** So do personal data and connections. */
  lemma PersonalKeysAreSensitive(before: string, key: string, after: string)
    requires key in ["email", "phone", "tel", "address", "postalcode", "zip", "birth", "card", "cvv", "iban",
                     "databaseurl", "connectionstring"]
    ensures IsSensitiveKey(before + key + after) && IsSensitiveKey(ToUpper(before + key + after))
  {
    PersonalDataIsListed(key);
    SensitiveHowever(before, key, after);
  }

  lemma SensitiveHowever(before: string, key: string, after: string)
    requires key in SECRET_PATTERNS || key in PERSONAL_PATTERNS
    ensures IsSensitiveKey(before + key + after) && IsSensitiveKey(ToUpper(before + key + after))
  {
    ListedIsSensitive(key);
    LongerKeysAreSensitiveToo(before, key, after);
    SpellingDoesNotMatter(before + key + after, '-', "");
  }
}
