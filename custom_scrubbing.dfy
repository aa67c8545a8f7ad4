/**
 * The telemetry scrubbing callback: a matched sensitive-looking text is kept
 * when it starts like a UUID (a session id), and otherwise replaced by a label
 * chosen by the first of `password`, `key`, `token`, `session` it mentions,
 * ignoring case.
 */
module Scrubbing {
  import opened Strings

  const REDACTED_PASSWORD: string := "[REDACTED-PASSWORD]"
  const REDACTED_KEY: string := "[REDACTED-KEY]"
  const REDACTED_TOKEN: string := "[REDACTED-TOKEN]"
  const REDACTED_SESSION: string := "[REDACTED-SESSION]"
  const REDACTED: string := "[REDACTED]"

  /** `[0-9a-f]` under `re.IGNORECASE`. */
  predicate IsHexDigit(c: char) {
    ('0' <= c <= '9') || ('a' <= c <= 'f') || ('A' <= c <= 'F')
  }

  /** The positions of the dashes in the 8-4-4-4-12 layout. */
  predicate IsDashPosition(i: int) {
    i == 8 || i == 13 || i == 18 || i == 23
  }

  /** `re.match` of the UUID pattern: the first 36 characters have the 8-4-4-4-12 shape. */
  predicate IsUuidPrefix(s: string) {
    |s| >= 36 && forall i :: 0 <= i < 36 ==> if IsDashPosition(i) then s[i] == '-' else IsHexDigit(s[i])
  }

  /** `custom_scrub_callback` applied to the matched text `m`. */
  function Scrub(m: string): (r: string)
    ensures IsUuidPrefix(m) ==> r == m
    ensures !IsUuidPrefix(m) ==> r in {REDACTED_PASSWORD, REDACTED_KEY, REDACTED_TOKEN, REDACTED_SESSION, REDACTED}
    ensures !IsUuidPrefix(m) && Contains(Lower(m), "password") ==> r == REDACTED_PASSWORD
    ensures !IsUuidPrefix(m) && !Contains(Lower(m), "password") && Contains(Lower(m), "key") ==> r == REDACTED_KEY
    ensures (!IsUuidPrefix(m) && !Contains(Lower(m), "password") && !Contains(Lower(m), "key")
             && Contains(Lower(m), "token")) ==> r == REDACTED_TOKEN
    ensures (!IsUuidPrefix(m) && !Contains(Lower(m), "password") && !Contains(Lower(m), "key")
             && !Contains(Lower(m), "token") && Contains(Lower(m), "session")) ==> r == REDACTED_SESSION
    ensures (!IsUuidPrefix(m) && !Contains(Lower(m), "password") && !Contains(Lower(m), "key")
             && !Contains(Lower(m), "token") && !Contains(Lower(m), "session")) ==> r == REDACTED
  {
    if IsUuidPrefix(m) then m
    else
      var lower := Lower(m);
      if Contains(lower, "password") then REDACTED_PASSWORD
      else if Contains(lower, "key") then REDACTED_KEY
      else if Contains(lower, "token") then REDACTED_TOKEN
      else if Contains(lower, "session") then REDACTED_SESSION
      else REDACTED
  }

  /** A word with a letter that `s` lacks does not occur in `s`. */
  lemma MissingLetter(s: string, word: string, c: char)
    requires c in word && c !in s
    ensures !Contains(s, word)
  {
    var j :| 0 <= j < |word| && word[j] == c;
    forall i | 0 <= i <= |s| ensures !OccursAt(s, word, i) {
      if i + |word| <= |s| {
        assert s[i..i + |word|][j] == s[i + j];
      }
    }
  }

  /** `Lower` of a text `l` already spelled in lower case, given a letter-by-letter check. */
  lemma LowerIs(s: string, l: string)
    requires |s| == |l| && forall i :: 0 <= i < |s| ==> LowerChar(s[i]) == l[i]
    ensures Lower(s) == l
  {
  }

  lemma PasswordLabelFixed()
    ensures Scrub(REDACTED_PASSWORD) == REDACTED_PASSWORD
  {
    var lower := "[redacted-password]";
    LowerIs(REDACTED_PASSWORD, lower);
    assert OccursAt(lower, "password", 10);
  }

  lemma KeyLabelFixed()
    ensures Scrub(REDACTED_KEY) == REDACTED_KEY
  {
    var lower := "[redacted-key]";
    LowerIs(REDACTED_KEY, lower);
    MissingLetter(lower, "password", 'p');
    assert OccursAt(lower, "key", 10);
  }

  lemma TokenLabelFixed()
    ensures Scrub(REDACTED_TOKEN) == REDACTED_TOKEN
  {
    var lower := "[redacted-token]";
    LowerIs(REDACTED_TOKEN, lower);
    MissingLetter(lower, "password", 'p');
    MissingLetter(lower, "key", 'y');
    assert OccursAt(lower, "token", 10);
  }

  lemma SessionLabelFixed()
    ensures Scrub(REDACTED_SESSION) == REDACTED_SESSION
  {
    var lower := "[redacted-session]";
    LowerIs(REDACTED_SESSION, lower);
    MissingLetter(lower, "password", 'p');
    MissingLetter(lower, "key", 'k');
    MissingLetter(lower, "token", 'k');
    assert OccursAt(lower, "session", 10);
  }

  lemma PlainLabelFixed()
    ensures Scrub(REDACTED) == REDACTED
  {
    var lower := "[redacted]";
    LowerIs(REDACTED, lower);
    MissingLetter(lower, "password", 'p');
    MissingLetter(lower, "key", 'k');
    MissingLetter(lower, "token", 'k');
    MissingLetter(lower, "session", 's');
  }

  /** Scrubbing is idempotent: a scrubbed text scrubs to itself. */
  lemma ScrubIdempotent(m: string)
    ensures Scrub(Scrub(m)) == Scrub(m)
  {
    PasswordLabelFixed();
    KeyLabelFixed();
    TokenLabelFixed();
    SessionLabelFixed();
    PlainLabelFixed();
  }

  /** The UUID test is anchored at the start only: whatever follows the UUID is kept too. */
  lemma UuidPrefixKept(uuid: string, rest: string)
    requires |uuid| == 36 && IsUuidPrefix(uuid)
    ensures Scrub(uuid + rest) == uuid + rest
  {
    assert forall i :: 0 <= i < 36 ==> (uuid + rest)[i] == uuid[i];
  }

  /** A text without upper-case letters is its own lower-case form. */
  lemma LowerOfLowercase(s: string)
    requires forall i :: 0 <= i < |s| ==> !('A' <= s[i] <= 'Z') && s[i] != '\U{212a}'
    ensures Lower(s) == s
  {
  }

  /** A UUID that does not start the text does not protect it. */
  lemma UuidNotAtStartScrubbed(uuid: string)
    requires |uuid| == 36 && IsUuidPrefix(uuid)
    requires forall i :: 0 <= i < |uuid| ==> !('A' <= uuid[i] <= 'Z')
    ensures Scrub("session=" + uuid) == REDACTED_SESSION
  {
    var m := "session=" + uuid;
    assert !IsHexDigit(m[0]);
    assert forall i :: 0 <= i < 8 ==> m[i] == "session="[i];
    assert forall i :: 8 <= i < |m| ==> m[i] == uuid[i - 8];
    LowerOfLowercase(m);
    assert m[..7] == "session";
    assert OccursAt(m, "session", 0);
    assert 'p' !in m && 'k' !in m;
    MissingLetter(m, "password", 'p');
    MissingLetter(m, "key", 'k');
    MissingLetter(m, "token", 'k');
  }
}
