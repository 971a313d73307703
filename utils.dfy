/** The validators and the toast icon of `Utils`. */
module Utils {
  import opened Seqs

  /** The characters the `\s` class matches in ECMAScript regular expressions
      (white space and line terminators). */
  predicate IsWhitespace(c: char) {
    c == '\t' || c == '\n' || c == '\U{B}' || c == '\U{C}' || c == '\r' || c == ' '
    || c == '\U{A0}' || c == '\U{1680}' || ('\U{2000}' <= c <= '\U{200A}')
    || c == '\U{2028}' || c == '\U{2029}' || c == '\U{202F}' || c == '\U{205F}'
    || c == '\U{3000}' || c == '\U{FEFF}'
  }

  /** `[^\s@]`. */
  predicate NameChar(c: char) {
    !IsWhitespace(c) && c != '@'
  }

  function IsAt(c: char): bool {
    c == '@'
  }

  /** `/^[^\s@]+@[^\s@]+\.[^\s@]+$/`, read as a split: `s` is a non-empty run of
      name characters, '@', a non-empty run, '.', and a non-empty run. */
  ghost predicate MatchesEmailPattern(s: seq<char>) {
    exists at, dot :: 0 < at && at + 1 < dot && dot + 1 < |s| && s[at] == '@' && s[dot] == '.'
      && forall k :: 0 <= k < |s| && k != at && k != dot ==> NameChar(s[k])
  }

  /** `validateEmail`: no whitespace, exactly one '@' with something before it, and
      after it a '.' that is neither the first nor the last character. */
  function ValidEmail(s: seq<char>): bool {
    var at := FirstIndex(s, IsAt);
    && at > 0
    && (forall k :: 0 <= k < |s| ==> !IsWhitespace(s[k]))
    && (forall k :: at < k < |s| ==> s[k] != '@')
    && exists dot :: at + 1 < dot < |s| - 1 && s[dot] == '.'
  }

  /** The check and the regular expression accept the same strings. */
  lemma ValidEmailIsPattern(s: seq<char>)
    ensures ValidEmail(s) <==> MatchesEmailPattern(s)
  {
    if ValidEmail(s) {
      ValidEmailMatches(s);
    }
    if MatchesEmailPattern(s) {
      var at, dot :| 0 < at && at + 1 < dot && dot + 1 < |s| && s[at] == '@' && s[dot] == '.'
        && forall k :: 0 <= k < |s| && k != at && k != dot ==> NameChar(s[k]);
      PatternIsValid(s, at, dot);
    }
  }

  lemma ValidEmailMatches(s: seq<char>)
    requires ValidEmail(s)
    ensures MatchesEmailPattern(s)
  {
    var at := FirstIndex(s, IsAt);
    var dot :| at + 1 < dot < |s| - 1 && s[dot] == '.';
    forall k | 0 <= k < |s| && k != at && k != dot
      ensures NameChar(s[k])
    {
      if k < at {
        assert !IsAt(s[k]);
      }
    }
    assert s[at] == '@';
  }

  lemma PatternIsValid(s: seq<char>, at: int, dot: int)
    requires 0 < at && at + 1 < dot && dot + 1 < |s| && s[at] == '@' && s[dot] == '.'
    requires forall k :: 0 <= k < |s| && k != at && k != dot ==> NameChar(s[k])
    ensures ValidEmail(s)
  {
    FirstIndexAt(s, IsAt, at);
  }

  /** Whitespace at any position, the last included, or a second '@', makes an email invalid. */
  lemma InvalidEmails(s: seq<char>, i: int, j: int)
    requires 0 <= i < |s| && 0 <= j < |s|
    ensures IsWhitespace(s[i]) ==> !ValidEmail(s)
    ensures i != j && s[i] == '@' && s[j] == '@' ==> !ValidEmail(s)
  {
    if i != j && s[i] == '@' && s[j] == '@' && ValidEmail(s) {
      var at := FirstIndex(s, IsAt);
      assert IsAt(s[i]);
    }
  }

  /** `\d`, '-', '+', '(' or ')'. */
  predicate PhoneSymbol(c: char) {
    ('0' <= c <= '9') || c == '-' || c == '+' || c == '(' || c == ')'
  }

  function NotWhitespace(c: char): bool {
    !IsWhitespace(c)
  }

  /** `validatePhone`: after `replace(/\s/g, '')` the string must be a non-empty
      run of `[\d\s\-\+\(\)]`. */
  function ValidPhone(phone: seq<char>): bool {
    var stripped := Filter(phone, NotWhitespace);
    |stripped| > 0 && forall i :: 0 <= i < |stripped| ==> PhoneSymbol(stripped[i]) || IsWhitespace(stripped[i])
  }

  /** A phone number is valid exactly when it has a character that is not
      whitespace and every such character is a digit, '-', '+', '(' or ')';
      so a blank string is invalid. */
  lemma {:induction false} ValidPhoneIff(phone: seq<char>)
    ensures ValidPhone(phone) <==>
      (exists i :: 0 <= i < |phone| && !IsWhitespace(phone[i]))
      && (forall i :: 0 <= i < |phone| && !IsWhitespace(phone[i]) ==> PhoneSymbol(phone[i]))
  {
    var stripped := Filter(phone, NotWhitespace);
    if ValidPhone(phone) {
      assert stripped[0] in phone;
      forall i | 0 <= i < |phone| && !IsWhitespace(phone[i])
        ensures PhoneSymbol(phone[i])
      {
        assert NotWhitespace(phone[i]);
        assert phone[i] in stripped;
      }
    }
    if (exists i :: 0 <= i < |phone| && !IsWhitespace(phone[i]))
       && (forall i :: 0 <= i < |phone| && !IsWhitespace(phone[i]) ==> PhoneSymbol(phone[i])) {
      var i :| 0 <= i < |phone| && !IsWhitespace(phone[i]);
      assert NotWhitespace(phone[i]);
      assert phone[i] in stripped;
      forall k | 0 <= k < |stripped|
        ensures PhoneSymbol(stripped[k])
      {
        var m :| 0 <= m < |phone| && phone[m] == stripped[k];
      }
    }
  }

  datatype ToastIcon = Check | Cross | WarningSign | InfoSign

  /** `getToastIcon`: the icon for success, error and warning; info for anything else. */
  function GetToastIcon(kind: string): (icon: ToastIcon)
    ensures kind == "success" ==> icon == Check
    ensures kind == "error" ==> icon == Cross
    ensures kind == "warning" ==> icon == WarningSign
    ensures kind != "success" && kind != "error" && kind != "warning" ==> icon == InfoSign
  {
    if kind == "success" then Check
    else if kind == "error" then Cross
    else if kind == "warning" then WarningSign
    else InfoSign
  }
}
