/** What the client's forms share: form data and error messages as JavaScript objects keyed by
    field name, the `handleChange` update every page repeats, and the e-mail pattern that the
    register and profile pages both test. */
module Forms {
  import opened Text
  import opened Wrappers

  /** Form data: field to the text typed into it. K enumerates the form's field names. */
  type Form<K> = map<K, string>

  /** `newErrors` / `errors`: field to message. */
  type Errors<K> = map<K, string>

  /** `formData[k]`, with a field never set read as the empty string. */
  function Field<K>(f: Form<K>, k: K): string {
    if k in f then f[k] else ""
  }

  /** The error map shows `message` for field k exactly when there is one. */
  predicate Reports<K>(errors: Errors<K>, k: K, message: Option<string>) {
    (k in errors <==> message.Some?) && (k in errors ==> errors[k] == message.value)
  }

  datatype Edited<K> = Edited(form: Form<K>, errors: Errors<K>)

  /** `handleChange`: the field takes the new value; if that field shows an error, the error is
      blanked. No other field and no other error changes. */
  function HandleChange<K(!new)>(form: Form<K>, errors: Errors<K>, name: K, value: string): (r: Edited<K>)
    ensures Field(r.form, name) == value
    ensures forall k :: k != name ==> Field(r.form, k) == Field(form, k)
    ensures r.errors.Keys == errors.Keys
    ensures forall k :: k in errors && k != name ==> r.errors[k] == errors[k]
    ensures name in r.errors ==> r.errors[name] == ""
  {
    var errors' := if name in errors && errors[name] != "" then errors[name := ""] else errors;
    Edited(form[name := value], errors')
  }

  /** Typing into two different fields, in either order, gives the same form. */
  lemma ChangesCommute<K(!new)>(form: Form<K>, errors: Errors<K>, a: K, va: string, b: K, vb: string)
    requires a != b
    ensures var ab := HandleChange(HandleChange(form, errors, a, va).form, HandleChange(form, errors, a, va).errors, b, vb);
            var ba := HandleChange(HandleChange(form, errors, b, vb).form, HandleChange(form, errors, b, vb).errors, a, va);
            ab == ba
  {
    var ab := HandleChange(HandleChange(form, errors, a, va).form, HandleChange(form, errors, a, va).errors, b, vb);
    var ba := HandleChange(HandleChange(form, errors, b, vb).form, HandleChange(form, errors, b, vb).errors, a, va);
    assert ab.form == ba.form;
    assert ab.errors == ba.errors;
  }

  /** `[^\s@]`. */
  predicate EmailChar(c: char) {
    !IsJsWhitespace(c) && c != '@'
  }

  predicate EmailChars(s: string) {
    forall i :: 0 <= i < |s| ==> EmailChar(s[i])
  }

  /** The regular expression's match with the `@` at i and the dot at j. */
  predicate EmailSplit(s: string, i: int, j: int) {
    0 < i && i + 1 < j < |s| - 1 && s[i] == '@' && s[j] == '.'
    && EmailChars(s[..i]) && EmailChars(s[i + 1..j]) && EmailChars(s[j + 1..])
  }

  /** `/^[^\s@]+@[^\s@]+\.[^\s@]+$/.test(s)`: a non-empty local part, `@`, a non-empty text, a
      dot, and a non-empty text, none of them holding white space or `@`. */
  predicate EmailPattern(s: string) {
    exists i, j | 0 <= i < |s| && 0 <= j < |s| :: EmailSplit(s, i, j)
  }

  lemma EmailSplitChars(s: string, i: int, j: int)
    requires EmailSplit(s, i, j)
    ensures forall k :: 0 <= k < |s| && k != i ==> EmailChar(s[k])
  {
    forall k | 0 <= k < |s| && k != i ensures EmailChar(s[k]) {
      if k < i {
        assert s[..i][k] == s[k];
      } else if k < j {
        assert s[i + 1..j][k - i - 1] == s[k];
      } else if k > j {
        assert s[j + 1..][k - j - 1] == s[k];
      }
    }
  }

  /** A split leaves no white space anywhere and no `@` but the one at i. */
  lemma EmailSplitMeans(s: string, i: int, j: int)
    requires EmailSplit(s, i, j)
    ensures forall k :: 0 <= k < |s| ==> !IsJsWhitespace(s[k])
    ensures 0 < i < |s| - 1 && s[i] == '@'
    ensures forall k :: 0 <= k < |s| && k != i ==> s[k] != '@'
  {
    EmailSplitChars(s, i, j);
  }

  /** What the pattern means for the whole string: no white space, exactly one `@`, not at
      either end, and so not blank. */
  lemma EmailPatternMeans(s: string)
    requires EmailPattern(s)
    ensures forall k :: 0 <= k < |s| ==> !IsJsWhitespace(s[k])
    ensures exists i :: 0 < i < |s| - 1 && s[i] == '@' && (forall k :: 0 <= k < |s| && k != i ==> s[k] != '@')
    ensures !IsBlank(s) && Trim(s) != []
  {
    var i, j :| 0 <= i < |s| && 0 <= j < |s| && EmailSplit(s, i, j);
    EmailSplitMeans(s, i, j);
    assert !IsBlank(s) by {
      assert !IsJsWhitespace(s[0]);
    }
    TrimEmptyIffBlank(s);
  }

  lemma EmailNotBlank(s: string)
    ensures EmailPattern(s) ==> !IsBlank(s)
  {
    if EmailPattern(s) {
      EmailPatternMeans(s);
    }
  }

  lemma EmailAccepted()
    ensures EmailPattern("a@b.c")
  {
    var s := "a@b.c";
    assert s[..1] == "a" && s[2..3] == "b" && s[4..] == "c";
    assert EmailSplit(s, 1, 3);
  }

  lemma EmailWithoutDotRejected()
    ensures !EmailPattern("a@b")
  {
  }

  lemma EmailWithSpaceRejected()
    ensures !EmailPattern("a b@c.d")
  {
    var t := "a b@c.d";
    forall i, j | 0 <= i < |t| && 0 <= j < |t| ensures !EmailSplit(t, i, j) {
      if i == 3 {
        assert t[..3][1] == ' ';
      }
    }
  }
}
