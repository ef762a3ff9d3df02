/** Rules shared by the four form pages: the field-error dictionary they keep in
    React state, the feedback modals, and the e-mail pattern
    `^[^\s@]+@[^\s@]+\.[^\s@]+$` used by sign-up and contact. */
module Forms {
  import opened Wrappers
  import opened JsText

  /** `errors[f]` is truthy: the field has a key whose message is not empty. */
  predicate HasError<F>(errors: map<F, string>, f: F) {
    f in errors && errors[f] != ""
  }

  /** The edit rule `if (errors[name]) setErrors(prev => ({ ...prev, [name]: '' }))`:
      the field's message is blanked (the key stays), every other entry is kept. */
  function ClearError<F>(errors: map<F, string>, f: F): (r: map<F, string>)
    ensures !HasError(r, f)
    ensures r.Keys == errors.Keys
    ensures forall g :: g in r && g != f ==> r[g] == errors[g]
    ensures !HasError(errors, f) ==> r == errors
  {
    if HasError(errors, f) then errors[f := ""] else errors
  }

  /** `if (...) newErrors[f] = message`: one step of a `validateForm`. */
  function AddError<F>(errors: map<F, string>, f: F, e: Option<string>): map<F, string> {
    if e.Some? then errors[f := e.value] else errors
  }

  /** The `newErrors` a `validateForm` builds by testing `fields` in order, where
      `check` gives the message (if any) of one field. */
  function ErrorsOver<F>(check: F -> Option<string>, fields: seq<F>): map<F, string> {
    if fields == [] then map[]
    else AddError(ErrorsOver(check, fields[..|fields| - 1]), fields[|fields| - 1], check(fields[|fields| - 1]))
  }

  /** Testing one more field of the list adds one more step. */
  lemma ErrorsOverPrefix<F>(check: F -> Option<string>, fields: seq<F>, k: int)
    requires 0 <= k < |fields|
    ensures ErrorsOver(check, fields[..k + 1]) == AddError(ErrorsOver(check, fields[..k]), fields[k], check(fields[k]))
  {
    assert fields[..k + 1][..k] == fields[..k];
  }

  /** The dictionary has a key exactly for the tested fields that fail, and it
      holds that field's message. */
  lemma {:induction false} ErrorsOverKeyed<F>(check: F -> Option<string>, fields: seq<F>, f: F)
    ensures f in ErrorsOver(check, fields) <==> f in fields && check(f).Some?
    ensures f in ErrorsOver(check, fields) ==> ErrorsOver(check, fields)[f] == check(f).value
  {
    if fields != [] {
      var init := fields[..|fields| - 1];
      ErrorsOverKeyed(check, init, f);
      assert fields == init + [fields[|fields| - 1]];
    }
  }

  /** The form passes (`Object.keys(newErrors).length === 0`) exactly when every
      tested field passes. */
  lemma ErrorsOverEmpty<F>(check: F -> Option<string>, fields: seq<F>)
    ensures ErrorsOver(check, fields) == map[] <==> forall f :: f in fields ==> check(f).None?
  {
    forall f ensures f in ErrorsOver(check, fields) <==> f in fields && check(f).Some? {
      ErrorsOverKeyed(check, fields, f);
    }
    if ErrorsOver(check, fields) != map[] {
      var f :| f in ErrorsOver(check, fields);
    }
  }

  /** The state of a success or error modal: `{ isOpen, message }`. */
  datatype Modal = Modal(isOpen: bool, message: string)

  const Closed := Modal(false, "")

  /** A character matched by the class `[^\s@]`. */
  predicate NotSpaceOrAt(c: char) {
    !IsWhiteSpace(c) && c != '@'
  }

  /** A match of `[^\s@]+`. */
  predicate Run(s: string) {
    |s| > 0 && forall i :: 0 <= i < |s| ==> NotSpaceOrAt(s[i])
  }

  /** The whole of `s` matches `[^\s@]+@[^\s@]+\.[^\s@]+` with the `@` at `i` and
      the escaped dot at `j`. */
  predicate EmailSplitAt(s: string, i: int, j: int) {
    && 0 < i && i + 1 < j && j + 1 < |s|
    && s[i] == '@' && s[j] == '.'
    && Run(s[..i]) && Run(s[i + 1..j]) && Run(s[j + 1..])
  }

  /** `/^[^\s@]+@[^\s@]+\.[^\s@]+$/.test(s)`: some way of cutting `s` matches. */
  predicate MatchesEmailPattern(s: string) {
    exists i, j | 0 <= i < j < |s| :: EmailSplitAt(s, i, j)
  }

  predicate NoWhiteSpace(s: string) {
    forall m :: 0 <= m < |s| ==> !IsWhiteSpace(s[m])
  }

  /** `s[i]` is the one and only `@` of `s`. */
  predicate OnlyAtSignAt(s: string, i: int) {
    0 <= i < |s| && s[i] == '@' && forall m :: 0 <= m < |s| && m != i ==> s[m] != '@'
  }

  /** After the `@` at `i` comes a dot that is neither the first nor the last
      character of the domain part. */
  predicate InnerDotAfter(s: string, i: int) {
    exists k :: 0 <= i + 1 < k < |s| - 1 && s[k] == '.'
  }

  lemma RunOfSlice(s: string, a: int, b: int)
    requires 0 <= a < b <= |s|
    requires forall m :: a <= m < b ==> NotSpaceOrAt(s[m])
    ensures Run(s[a..b])
  {
  }

  /** A cut of `s` that matches places the only `@` at `i` and an inner dot
      after it, and leaves no white space. */
  lemma {:induction false} SplitShape(s: string, i: int, j: int)
    requires EmailSplitAt(s, i, j)
    ensures NoWhiteSpace(s) && OnlyAtSignAt(s, i) && 0 < i && InnerDotAfter(s, i)
  {
    forall m | 0 <= m < |s| && m != i && m != j
      ensures NotSpaceOrAt(s[m])
    {
      if m < i {
        assert s[..i][m] == s[m];
      } else if m < j {
        assert s[i + 1..j][m - i - 1] == s[m];
      } else {
        assert s[j + 1..][m - j - 1] == s[m];
      }
    }
    assert 0 <= i + 1 < j < |s| - 1 && s[j] == '.';
  }

  /** Conversely, text of that shape has a cut that matches. */
  lemma {:induction false} ShapeSplit(s: string, i: int)
    requires NoWhiteSpace(s) && OnlyAtSignAt(s, i) && 0 < i && InnerDotAfter(s, i)
    ensures MatchesEmailPattern(s)
  {
    var k :| 0 <= i + 1 < k < |s| - 1 && s[k] == '.';
    assert forall m :: 0 <= m < |s| && m != i ==> NotSpaceOrAt(s[m]);
    RunOfSlice(s, 0, i);
    RunOfSlice(s, i + 1, k);
    RunOfSlice(s, k + 1, |s|);
    assert s[..i] == s[0..i] && s[k + 1..] == s[k + 1..|s|];
    assert EmailSplitAt(s, i, k);
  }

  /** What the pattern accepts, in words: no white space anywhere, exactly one
      `@`, something before it, and after it a dot that is neither first nor
      last. */
  lemma {:induction false} EmailPatternShape(s: string)
    ensures MatchesEmailPattern(s) <==>
      NoWhiteSpace(s) && exists i :: OnlyAtSignAt(s, i) && 0 < i && InnerDotAfter(s, i)
  {
    if MatchesEmailPattern(s) {
      var i, j :| 0 <= i < j < |s| && EmailSplitAt(s, i, j);
      SplitShape(s, i, j);
    }
    if NoWhiteSpace(s) && exists i :: OnlyAtSignAt(s, i) && 0 < i && InnerDotAfter(s, i) {
      var i :| OnlyAtSignAt(s, i) && 0 < i && InnerDotAfter(s, i);
      ShapeSplit(s, i);
    }
  }

  /** An address the pattern accepts is never blank, so the "required" test in
      front of the pattern test rejects nothing the pattern would accept. */
  lemma MatchedEmailNotBlank(s: string)
    ensures MatchesEmailPattern(s) ==> !IsBlank(s)
  {
    if MatchesEmailPattern(s) {
      var i, j :| 0 <= i < j < |s| && EmailSplitAt(s, i, j);
      assert s[..i][0] == s[0];
      BlankIffAllWhiteSpace(s);
    }
  }

  /** The same for a form of four tested fields, stated field by field. */
  lemma ErrorsOverFourEmpty<F>(check: F -> Option<string>, a: F, b: F, c: F, d: F)
    ensures ErrorsOver(check, [a, b, c, d]) == map[] <==>
      check(a).None? && check(b).None? && check(c).None? && check(d).None?
  {
    ErrorsOverEmpty(check, [a, b, c, d]);
    assert [a, b, c, d][0] == a && [a, b, c, d][1] == b && [a, b, c, d][2] == c && [a, b, c, d][3] == d;
  }

  /** `if (!s.trim()) newErrors[f] = required`: a required text field. */
  function RequiredError(s: string, required: string): (e: Option<string>)
    ensures e.None? <==> !IsBlank(s)
    ensures e.Some? ==> e.value == required
  {
    if IsBlank(s) then Some(required) else None
  }

  /** A required text field that must also hold `min` characters once trimmed:
      the "required" message for a blank text, the "too short" one otherwise. */
  function TrimmedLengthError(s: string, min: nat, required: string, tooShort: string): (e: Option<string>)
    requires min >= 1
    ensures e.None? <==> |Trim(s)| >= min
    ensures IsBlank(s) ==> e == Some(required)
    ensures !IsBlank(s) && |Trim(s)| < min ==> e == Some(tooShort)
  {
    if IsBlank(s) then Some(required)
    else if |Trim(s)| < min then Some(tooShort)
    else None
  }

  /** An e-mail field: required, then the pattern, tested on the untrimmed text. */
  function EmailError(s: string, required: string, invalid: string): (e: Option<string>)
    ensures e.None? <==> MatchesEmailPattern(s)
    ensures IsBlank(s) ==> e == Some(required)
    ensures !IsBlank(s) && !MatchesEmailPattern(s) ==> e == Some(invalid)
  {
    MatchedEmailNotBlank(s);
    if IsBlank(s) then Some(required)
    else if !MatchesEmailPattern(s) then Some(invalid)
    else None
  }

  /** A plain address is accepted. */
  lemma PlainAddressAccepted()
    ensures MatchesEmailPattern("jo@x.io")
  {
    assert EmailSplitAt("jo@x.io", 2, 4) by {
      assert "jo@x.io"[..2] == "jo";
      assert "jo@x.io"[3..4] == "x";
      assert "jo@x.io"[5..] == "io";
    }
  }

  /** A second `@` is rejected. */
  lemma SecondAtSignRejected()
    ensures !MatchesEmailPattern("jo@x@y.io")
  {
    EmailPatternShape("jo@x@y.io");
    assert !OnlyAtSignAt("jo@x@y.io", 2) by { assert "jo@x@y.io"[4] == '@'; }
    assert !OnlyAtSignAt("jo@x@y.io", 4) by { assert "jo@x@y.io"[2] == '@'; }
  }

  /** A dot right after the `@` is rejected. */
  lemma DotAfterAtSignRejected()
    ensures !MatchesEmailPattern("jo@.io")
  {
    EmailPatternShape("jo@.io");
  }
}
