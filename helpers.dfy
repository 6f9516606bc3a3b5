/** Form validators and display formatters shared by the StackIt pages. */
module Helpers {
  import opened Wrappers
  import opened Text

  /** `{ isValid, message? }`. */
  datatype Validation = Valid | Invalid(message: string)

  // ---------------------------------------------------------------- e-mail

  /** No white space and no `@`: the regular-expression class `[^\s@]`. */
  predicate PlainChars(t: string)
  {
    forall i :: 0 <= i < |t| ==> !IsSpace(t[i]) && t[i] != '@'
  }

  /** `s` splits as `local @ host . tld` at the `@` at `a` and the `.` at `b`, every part
      non-empty and made of plain characters. */
  predicate EmailSplit(s: string, a: int, b: int)
  {
    0 < a && a + 1 < b && b + 1 < |s| && s[a] == '@' && s[b] == '.'
    && PlainChars(s[..a]) && PlainChars(s[a + 1..b]) && PlainChars(s[b + 1..])
  }

  /** `/^[^\s@]+@[^\s@]+\.[^\s@]+$/.test(s)`, decided directly: no white space, exactly one
      `@`, not first, and a `.` strictly inside the part after it. */
  function ValidateEmail(s: string): (r: bool)
    ensures r <==> exists a, b :: EmailSplit(s, a, b)
  {
    var r := (forall i :: 0 <= i < |s| ==> !IsSpace(s[i]))
      && (exists a :: 0 < a < |s| && s[a] == '@' && (forall i :: 0 <= i < |s| && s[i] == '@' ==> i == a)
                      && exists b :: a + 1 < b < |s| - 1 && s[b] == '.');
    EmailIff(s, r);
    r
  }

  lemma EmailIff(s: string, r: bool)
    requires r == ((forall i :: 0 <= i < |s| ==> !IsSpace(s[i]))
      && (exists a :: 0 < a < |s| && s[a] == '@' && (forall i :: 0 <= i < |s| && s[i] == '@' ==> i == a)
                      && exists b :: a + 1 < b < |s| - 1 && s[b] == '.'))
    ensures r <==> exists a, b :: EmailSplit(s, a, b)
  {
    if r {
      var a :| 0 < a < |s| && s[a] == '@' && (forall i :: 0 <= i < |s| && s[i] == '@' ==> i == a)
               && exists b :: a + 1 < b < |s| - 1 && s[b] == '.';
      var b :| a + 1 < b < |s| - 1 && s[b] == '.';
      assert EmailSplit(s, a, b);
    }
    if exists a, b :: EmailSplit(s, a, b) {
      var a, b :| EmailSplit(s, a, b);
      forall i | 0 <= i < |s|
        ensures !IsSpace(s[i]) && (s[i] == '@' ==> i == a)
      {
        if i < a {
          assert s[i] == s[..a][i];
        } else if a < i < b {
          assert s[i] == s[a + 1..b][i - a - 1];
        } else if b < i {
          assert s[i] == s[b + 1..][i - b - 1];
        }
      }
    }
  }

  // ---------------------------------------------------------------- password and user name

  const PasswordTooShort := "Password must be at least 6 characters long"
  const PasswordNoLetter := "Password must contain at least one letter"

  predicate HasLetter(s: string)
  {
    exists i :: 0 <= i < |s| && IsAsciiLetter(s[i])
  }

  /** `validatePassword`: the length check first, then `/[A-Za-z]/`. */
  function ValidatePassword(p: string): (r: Validation)
    ensures r == Valid <==> |p| >= 6 && HasLetter(p)
    ensures r == Invalid(PasswordTooShort) <==> |p| < 6
    ensures r == Invalid(PasswordNoLetter) <==> |p| >= 6 && !HasLetter(p)
  {
    if |p| < 6 then Invalid(PasswordTooShort)
    else if !HasLetter(p) then Invalid(PasswordNoLetter)
    else Valid
  }

  const UsernameTooShort := "Username must be at least 3 characters long"
  const UsernameTooLong := "Username must be less than 20 characters"
  const UsernameBadChars := "Username can only contain letters, numbers, underscores, and spaces"

  /** The class `[a-zA-Z0-9_\s]`. */
  predicate UsernameChar(c: char)
  {
    IsAsciiLetter(c) || IsDigit(c) || c == '_' || IsSpace(c)
  }

  predicate AllUsernameChars(s: string)
  {
    forall i :: 0 <= i < |s| ==> UsernameChar(s[i])
  }

  /** `validateUsername`: too short, then too long, then `/^[a-zA-Z0-9_\s]+$/`. A name of
      exactly 20 characters passes, although the message speaks of fewer than 20. */
  function ValidateUsername(u: string): (r: Validation)
    ensures r == Valid <==> 3 <= |u| <= 20 && AllUsernameChars(u)
    ensures r == Invalid(UsernameTooShort) <==> |u| < 3
    ensures r == Invalid(UsernameTooLong) <==> |u| > 20
    ensures r == Invalid(UsernameBadChars) <==> 3 <= |u| <= 20 && !AllUsernameChars(u)
  {
    if |u| < 3 then Invalid(UsernameTooShort)
    else if |u| > 20 then Invalid(UsernameTooLong)
    else if !AllUsernameChars(u) then Invalid(UsernameBadChars)
    else Valid
  }

  // ---------------------------------------------------------------- question fields

  const TitleRequired := "Title is required"
  const TitleTooShort := "Title must be at least 10 characters long"
  const TitleTooLong := "Title must be less than 200 characters"

  /** `validateQuestionTitle`: blank after trimming, then the untrimmed length in 10..200. */
  function ValidateQuestionTitle(t: string): (r: Validation)
    ensures r == Invalid(TitleRequired) <==> AllSpace(t)
    ensures r == Invalid(TitleTooShort) <==> !AllSpace(t) && |t| < 10
    ensures r == Invalid(TitleTooLong) <==> !AllSpace(t) && |t| > 200
    ensures r == Valid <==> !AllSpace(t) && 10 <= |t| <= 200
  {
    BlankIffAllSpace(t);
    if Trim(t) == "" then Invalid(TitleRequired)
    else if |t| < 10 then Invalid(TitleTooShort)
    else if |t| > 200 then Invalid(TitleTooLong)
    else Valid
  }

  const DescriptionRequired := "Description is required"
  const DescriptionTooShort := "Description must be at least 20 characters long"

  /** `validateQuestionDescription` on the text already extracted from the HTML. */
  function ValidateQuestionDescription(text: string): (r: Validation)
    ensures r == Invalid(DescriptionRequired) <==> AllSpace(text)
    ensures r == Invalid(DescriptionTooShort) <==> !AllSpace(text) && |text| < 20
    ensures r == Valid <==> !AllSpace(text) && |text| >= 20
  {
    BlankIffAllSpace(text);
    if Trim(text) == "" then Invalid(DescriptionRequired)
    else if |text| < 20 then Invalid(DescriptionTooShort)
    else Valid
  }

  /** A valid title has at least one character that is not white space. */
  lemma ValidTitleHasText(t: string)
    requires ValidateQuestionTitle(t) == Valid
    ensures Trim(t) != ""
  {
    BlankIffAllSpace(t);
  }

  // ---------------------------------------------------------------- formatting

  /** `text.substring(0, n)`: the end is clamped to `0..|text|`. */
  function Prefix(text: string, n: int): (r: string)
    ensures |r| == if n < 0 then 0 else if n > |text| then |text| else n
    ensures r == text[..|r|]
  {
    if n < 0 then [] else if n > |text| then text else text[..n]
  }

  /** `truncateText(text, maxLength)`. */
  function TruncateText(text: string, maxLength: int): (r: string)
    ensures |text| <= maxLength ==> r == text
    ensures |text| > maxLength ==> r == Prefix(text, maxLength) + "..."
  {
    if |text| > maxLength then Prefix(text, maxLength) + "..." else text
  }

  /** A text is either kept whole or cut to exactly its first `maxLength` characters
      followed by the three dots, so it is never longer than the limit plus three. */
  lemma TruncateBounds(text: string, maxLength: nat)
    ensures var r := TruncateText(text, maxLength);
            && |r| <= maxLength + 3
            && (r == text || (|r| == maxLength + 3 && r[..maxLength] == text[..maxLength] && r[maxLength..] == "..."))
  {
    var r := TruncateText(text, maxLength);
    if |text| > maxLength {
      assert r == text[..maxLength] + "...";
      assert r[..maxLength] == text[..maxLength];
    }
  }

  /** Truncating twice to the same length changes nothing more when the limit leaves room for
      the dots. */
  lemma TruncateIdempotent(text: string, maxLength: nat)
    requires |text| > maxLength
    ensures TruncateText(TruncateText(text, maxLength), maxLength + 3) == TruncateText(text, maxLength)
  {
  }

  /** The age buckets of `formatDate`. */
  datatype Age = JustNow | HoursAgo(n: int) | DaysAgo(n: int) | WeeksAgo(n: int) | MonthsAgo(n: int)
               | YearsAgo(n: int)

  /** `Math.floor((now - then) / 3600000)` for millisecond timestamps. */
  function HoursBetween(thenMs: int, nowMs: int): int
  {
    (nowMs - thenMs) / 3600000
  }

  /** `formatDate` over the whole-hour difference `h`. */
  function AgeOfHours(h: int): (r: Age)
    ensures r == JustNow <==> h < 1
    ensures r.HoursAgo? <==> 1 <= h < 24
    ensures r.DaysAgo? <==> 24 <= h < 7 * 24
    ensures r.WeeksAgo? <==> 7 * 24 <= h < 30 * 24
    ensures r.MonthsAgo? <==> 30 * 24 <= h < 365 * 24
    ensures r.YearsAgo? <==> h >= 365 * 24
  {
    if h < 1 then JustNow
    else if h < 24 then HoursAgo(h)
    else
      var days := h / 24;
      if days < 7 then DaysAgo(days)
      else if days < 30 then WeeksAgo(days / 7)
      else if days < 365 then MonthsAgo(days / 30)
      else YearsAgo(days / 365)
  }

  /** Every bucket shows a count of at least one, bounded by where the next bucket starts. */
  lemma AgeCounts(h: int)
    ensures AgeOfHours(h).HoursAgo? ==> AgeOfHours(h).n == h
    ensures AgeOfHours(h).DaysAgo? ==> 1 <= AgeOfHours(h).n <= 6
    ensures AgeOfHours(h).WeeksAgo? ==> 1 <= AgeOfHours(h).n <= 4
    ensures AgeOfHours(h).MonthsAgo? ==> 1 <= AgeOfHours(h).n <= 12
    ensures AgeOfHours(h).YearsAgo? ==> AgeOfHours(h).n >= 1
  {
  }

  /** An older date never lands in an earlier bucket. */
  function AgeRank(a: Age): nat
  {
    match a
    case JustNow => 0
    case HoursAgo(_) => 1
    case DaysAgo(_) => 2
    case WeeksAgo(_) => 3
    case MonthsAgo(_) => 4
    case YearsAgo(_) => 5
  }

  lemma AgeMonotone(h1: int, h2: int)
    requires h1 <= h2
    ensures AgeRank(AgeOfHours(h1)) <= AgeRank(AgeOfHours(h2))
  {
  }

  function AgeText(a: Age): string
  {
    match a
    case JustNow => "Just now"
    case HoursAgo(n) => IntToString(n) + "h ago"
    case DaysAgo(n) => IntToString(n) + "d ago"
    case WeeksAgo(n) => IntToString(n) + "w ago"
    case MonthsAgo(n) => IntToString(n) + "mo ago"
    case YearsAgo(n) => IntToString(n) + "y ago"
  }

  /** `formatDate(date)` given the current time. */
  function FormatDate(thenMs: int, nowMs: int): string
  {
    AgeText(AgeOfHours(HoursBetween(thenMs, nowMs)))
  }

  /** The number in a shown age reads back as the bucket's count. */
  lemma AgeTextCount(a: Age)
    requires !a.JustNow?
    ensures ParseInt(AgeText(a)) == Some(a.n)
  {
    match a
    case HoursAgo(n) => IntToStringPrefixRoundTrip(n, "h ago");
    case DaysAgo(n) => IntToStringPrefixRoundTrip(n, "d ago");
    case WeeksAgo(n) => IntToStringPrefixRoundTrip(n, "w ago");
    case MonthsAgo(n) => IntToStringPrefixRoundTrip(n, "mo ago");
    case YearsAgo(n) => IntToStringPrefixRoundTrip(n, "y ago");
  }

  /** `pluralize(count, singular, plural)`: an absent or empty `plural` is replaced by the
      singular with an `s`. */
  function Pluralize(count: int, singular: string, plural: Option<string>): (r: string)
    ensures count == 1 ==> r == "1 " + singular
    ensures count != 1 && plural.Some? && plural.value != "" ==> r == IntToString(count) + " " + plural.value
    ensures count != 1 && (plural.None? || plural.value == "") ==> r == IntToString(count) + " " + singular + "s"
  {
    var word := if count == 1 then singular
                else if plural.Some? && plural.value != "" then plural.value
                else singular + "s";
    IntToString(count) + " " + word
  }

  /** The count at the head of a pluralised phrase reads back as the count. */
  lemma PluralizeCount(count: int, singular: string, plural: Option<string>)
    ensures ParseInt(Pluralize(count, singular, plural)) == Some(count)
  {
    var word := if count == 1 then singular
                else if plural.Some? && plural.value != "" then plural.value
                else singular + "s";
    assert Pluralize(count, singular, plural) == IntToString(count) + (" " + word);
    IntToStringPrefixRoundTrip(count, " " + word);
  }
}
