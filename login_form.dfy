/**
 * The login form (src/components/LoginForm.tsx): a demo sign-in whose only
 * rule is that the username, with surrounding whitespace trimmed, must not be
 * empty; the trimmed name is what reaches the page.
 */
module LoginForm {
  import opened Wrappers

  /**
   * The characters String.prototype.trim removes: the ECMAScript WhiteSpace
   * code points (tab, vertical tab, form feed, no-break space, byte order
   * mark and the Unicode space separators) and the LineTerminator ones.
   */
  predicate IsWhitespace(c: char)
    ensures c < '\U{0080}' ==> (IsWhitespace(c) <==> c == ' ' || '\t' <= c <= '\r')
    ensures IsWhitespace(c) ==> !('0' <= c <= '9' || 'A' <= c <= 'Z' || 'a' <= c <= 'z')
  {
    || c == '\U{0009}' || c == '\U{000B}' || c == '\U{000C}' || c == '\U{FEFF}'
    || c == '\U{0020}' || c == '\U{00A0}' || c == '\U{1680}'
    || ('\U{2000}' <= c <= '\U{200A}') || c == '\U{202F}' || c == '\U{205F}' || c == '\U{3000}'
    || c == '\U{000A}' || c == '\U{000D}' || c == '\U{2028}' || c == '\U{2029}'
  }

  predicate AllWhitespace(s: string) {
    forall i :: 0 <= i < |s| ==> IsWhitespace(s[i])
  }

  /** The index of the first non-whitespace character at or after `from` (or |s|). */
  function ContentStart(s: string, from: nat): (k: nat)
    requires from <= |s|
    ensures from <= k <= |s|
    ensures forall j :: from <= j < k ==> IsWhitespace(s[j])
    ensures k == |s| || !IsWhitespace(s[k])
    decreases |s| - from
  {
    if from == |s| || !IsWhitespace(s[from]) then from else ContentStart(s, from + 1)
  }

  /** The end of the content of s[lo..hi]: just after its last non-whitespace character, or lo. */
  function ContentEnd(s: string, lo: nat, hi: nat): (k: nat)
    requires lo <= hi <= |s|
    ensures lo <= k <= hi
    ensures forall j :: k <= j < hi ==> IsWhitespace(s[j])
    ensures k == lo || !IsWhitespace(s[k - 1])
    decreases hi
  {
    if hi == lo || !IsWhitespace(s[hi - 1]) then hi else ContentEnd(s, lo, hi - 1)
  }

  /** `r` is s[i..i + |r|], and everything of `s` around it is whitespace. */
  predicate TrimmedAt(s: string, r: string, i: nat) {
    && i + |r| <= |s| && r == s[i..i + |r|]
    && (forall j :: 0 <= j < i ==> IsWhitespace(s[j]))
    && (forall j :: i + |r| <= j < |s| ==> IsWhitespace(s[j]))
  }

  /**
   * username.trim(): `s` with whitespace-only ends cut off, so that the rest
   * neither starts nor ends with whitespace; empty exactly when `s` is all
   * whitespace.
   */
  function Trim(s: string): (r: string)
    ensures r == [] <==> AllWhitespace(s)
    ensures r != [] ==> !IsWhitespace(r[0]) && !IsWhitespace(r[|r| - 1])
    ensures exists i :: TrimmedAt(s, r, i)
  {
    var b := ContentStart(s, 0);
    var e := ContentEnd(s, b, |s|);
    assert TrimmedAt(s, s[b..e], b);
    s[b..e]
  }

  /**
   * Trim is the only such cut: a non-empty piece of `s` with whitespace
   * around it and none at its own ends is Trim(s).
   */
  lemma TrimUnique(s: string, r: string, i: nat)
    requires TrimmedAt(s, r, i) && r != []
    requires !IsWhitespace(r[0]) && !IsWhitespace(r[|r| - 1])
    ensures r == Trim(s)
  {
  }

  /** Trimming a trimmed name changes nothing. */
  lemma TrimIdempotent(s: string)
    ensures Trim(Trim(s)) == Trim(s)
  {
  }

  /**
   * handleSubmit's guard: onLogin is called with the trimmed username when
   * that is non-empty, and not at all otherwise.
   */
  function SubmittedName(username: string): (login: Option<string>)
    ensures login.None? <==> AllWhitespace(username)
    ensures login.Some? ==> (login.value == Trim(username) && login.value != [] &&
                             !IsWhitespace(login.value[0]) &&
                             !IsWhitespace(login.value[|login.value| - 1]))
  {
    var name := Trim(username);
    if name != [] then Some(name) else None
  }

  /**
   * A press of the submit button. Both inputs are `required`, so the
   * browser's constraint validation refuses to submit while either field is
   * empty, and handleSubmit never runs; otherwise handleSubmit decides. A
   * whitespace-only username passes `required` and is then refused by the
   * trim guard.
   */
  function Submission(username: string, password: string): (login: Option<string>)
    ensures login.Some? <==> password != [] && !AllWhitespace(username)
    ensures username == [] || password == [] ==> login == None
    ensures login.Some? ==> login == SubmittedName(username)
  {
    if username == [] || password == [] then None else SubmittedName(username)
  }

  /** The form's state. */
  class LoginForm {
    var isLogin: bool
    var username: string
    var password: string

    /** A fresh form: sign-in mode, both fields empty. */
    constructor ()
      ensures isLogin && username == "" && password == ""
    {
      isLogin, username, password := true, "", "";
    }

    /** The username field's onChange. */
    method SetUsername(value: string)
      modifies this`username
      ensures username == value && password == old(password) && isLogin == old(isLogin)
    {
      username := value;
    }

    /** The password field's onChange. */
    method SetPassword(value: string)
      modifies this`password
      ensures password == value && username == old(username) && isLogin == old(isLogin)
    {
      password := value;
    }

    /** The sign-in / sign-up toggle: flips the mode and keeps what was typed. */
    method ToggleMode()
      modifies this`isLogin
      ensures isLogin == !old(isLogin)
      ensures username == old(username) && password == old(password)
    {
      isLogin := !isLogin;
    }

    /**
     * handleSubmit: the name passed to onLogin, if it is called. It depends on
     * the username alone, never on the password or the mode, and changes no
     * field.
     */
    method HandleSubmit() returns (login: Option<string>)
      ensures login == SubmittedName(username)
      ensures login.Some? <==> !AllWhitespace(username)
    {
      login := SubmittedName(username);
    }

    /**
     * The submit button: the login it leads to, after the browser's check of
     * the two required fields and then handleSubmit. Changes no field.
     */
    method Submit() returns (login: Option<string>)
      ensures login == Submission(username, password)
      ensures login.Some? <==> password != [] && !AllWhitespace(username)
      ensures login.Some? ==> login.value == Trim(username)
    {
      if username == [] || password == [] {
        login := None;
      } else {
        login := HandleSubmit();
      }
    }
  }
}
