/** The add/edit transaction form (client/src/components/transactions/TransactionForm.js): the
    initial data, the values taken from a transaction being edited, validation, the conversion
    done on submit, and the categories offered for the chosen type. */
module TransactionForm {
  import opened Text
  import opened Wrappers
  import opened Forms

  const AmountNotPositive := "Amount must be greater than 0"
  const CategoryRequired := "Please select a category"
  const DateRequired := "Please select a date"
  const DescriptionTooLong := "Description must be less than 500 characters"

  /** The form's fields (`name` attributes `amount`, `description`, `type`, `category_id`, `date`). */
  datatype TxField = Amount | Description | Type | CategoryId | Date

  /** The form's initial data; `today` is the `YYYY-MM-DD` text of the current date. */
  function Initial(today: string): (form: Form<TxField>)
    ensures Field(form, Amount) == "" && Field(form, Description) == "" && Field(form, CategoryId) == ""
    ensures Field(form, Type) == "expense" && Field(form, Date) == today
  {
    map[Amount := "", Description := "", Type := "expense", CategoryId := "", Date := today]
  }

  // ---------------------------------------------------------------- parseFloat

  /** A JavaScript number as `parseFloat` can return it: NaN, or a finite value. */
  datatype Number = NaN | Finite(value: real)

  /** How many decimal digits `s` starts with. */
  function LeadingDigits(s: string): (n: nat)
    ensures n <= |s| && AllDigits(s[..n])
    ensures n < |s| ==> !IsDigit(s[n])
  {
    if s == [] || !IsDigit(s[0]) then 0
    else
      var n := 1 + LeadingDigits(s[1..]);
      assert s[..n] == [s[0]] + s[1..][..n - 1];
      n
  }

  /** The value of a string of digits, 0 for the empty one. */
  function Value(d: string): nat
    requires AllDigits(d)
  {
    if d == [] then 0 else DigitsValue(d)
  }

  function Pow10(k: nat): (p: nat)
    ensures p >= 1
  {
    if k == 0 then 1 else 10 * Pow10(k - 1)
  }

  /** The digits after a `.` at position n, if there is one. */
  function FractionDigits(u: string, n: nat): (f: string)
    requires n <= |u|
    ensures AllDigits(f)
  {
    if n < |u| && u[n] == '.' then u[n + 1..][..LeadingDigits(u[n + 1..])] else ""
  }

  /** The unsigned decimal at the start of u: integer digits, then an optional `.` with fraction
      digits, read as far as they go; NaN when there is no digit at all. */
  function Unsigned(u: string): Number {
    var n := LeadingDigits(u);
    var frac := FractionDigits(u, n);
    if n == 0 && frac == [] then NaN
    else Finite(Value(u[..n]) as real + Value(frac) as real / Pow10(|frac|) as real)
  }

  function Negate(x: Number): Number {
    if x.NaN? then NaN else Finite(-x.value)
  }

  /** `parseFloat(s)`: leading white space is skipped, then an optional sign and the unsigned
      decimal that follows. */
  function ParseFloat(s: string): Number {
    var t := TrimStart(s);
    if |t| > 0 && t[0] == '-' then Negate(Unsigned(t[1..]))
    else if |t| > 0 && t[0] == '+' then Unsigned(t[1..])
    else Unsigned(t)
  }

  /** An amount in cents written with two decimals, as typed into the `step="0.01"` input. */
  function CentsText(cents: nat): (s: string)
    ensures |s| >= 4 && IsDigit(s[0])
  {
    var hundredths := cents % 100;
    NatToString(cents / 100) + "." + [DigitChar(hundredths / 10), DigitChar(hundredths % 10)]
  }

  lemma TrimStartKeeps(s: string)
    requires s != [] && !IsJsWhitespace(s[0])
    ensures TrimStart(s) == s
  {
  }

  lemma AllLeadingDigits(d: string)
    requires AllDigits(d)
    ensures LeadingDigits(d) == |d|
  {
    assert |d| == LeadingDigits(d) || IsDigit(d[LeadingDigits(d)]);
  }

  /** The number of leading digits of `d + rest` is |d| when `rest` starts with a non-digit. */
  lemma LeadingDigitsOf(d: string, rest: string)
    requires AllDigits(d) && rest != [] && !IsDigit(rest[0])
    ensures LeadingDigits(d + rest) == |d|
  {
    var s := d + rest;
    assert forall i :: 0 <= i < |d| ==> s[i] == d[i];
    assert s[|d|] == rest[0];
  }

  /** Text that starts with a digit is read without skipping or a sign. */
  lemma ParseFromDigit(s: string)
    requires s != [] && IsDigit(s[0])
    ensures ParseFloat(s) == Unsigned(s)
  {
    TrimStartKeeps(s);
  }

  /** Digits, a dot and digits read as the decimal they spell. */
  lemma UnsignedDecimal(s: string, whole: string, frac: string)
    requires s == whole + ("." + frac)
    requires |whole| >= 1 && AllDigits(whole) && |frac| >= 1 && AllDigits(frac)
    ensures Unsigned(s) == Finite(Value(whole) as real + Value(frac) as real / Pow10(|frac|) as real)
  {
    LeadingDigitsOf(whole, "." + frac);
    assert s[..|whole|] == whole;
    assert s[|whole| + 1..] == frac;
    AllLeadingDigits(frac);
    assert frac[..|frac|] == frac;
    assert FractionDigits(s, |whole|) == frac;
  }

  lemma TwoDigits(a: nat, b: nat)
    requires a < 10 && b < 10
    ensures Value([DigitChar(a), DigitChar(b)]) == 10 * a + b
  {
    var d := [DigitChar(a), DigitChar(b)];
    assert d[..1] == [DigitChar(a)];
    assert DigitsValue(d[..1]) == a;
    assert DigitsValue(d) == DigitsValue(d[..1]) * 10 + b;
  }

  lemma CentsSplit(cents: nat, whole: nat, part: nat, scale: nat)
    requires whole == cents / 100 && part == cents % 100 && scale == 100
    ensures whole as real + part as real / scale as real == cents as real / 100.0
  {
    assert cents == 100 * whole + part;
  }

  /** Whole units, a dot and two digits of hundredths read as the amount in cents. */
  lemma UnsignedCents(s: string, whole: string, frac: string, cents: nat)
    requires s == whole + ("." + frac)
    requires |whole| >= 1 && AllDigits(whole) && |frac| == 2 && AllDigits(frac)
    requires Value(whole) == cents / 100 && Value(frac) == cents % 100
    ensures Unsigned(s) == Finite(cents as real / 100.0)
  {
    UnsignedDecimal(s, whole, frac);
    assert Pow10(1) == 10;
    CentsSplit(cents, Value(whole), Value(frac), Pow10(|frac|));
  }

  /** `parseFloat` reads back the amount typed with two decimals. */
  lemma {:induction false} ParseCentsText(cents: nat)
    ensures ParseFloat(CentsText(cents)) == Finite(cents as real / 100.0)
  {
    var s := CentsText(cents);
    var whole := NatToString(cents / 100);
    var hundredths := cents % 100;
    var frac := [DigitChar(hundredths / 10), DigitChar(hundredths % 10)];
    assert s == whole + ("." + frac) by {
      assert s == whole + "." + frac;
    }
    ParseFromDigit(s);
    TwoDigits(hundredths / 10, hundredths % 10);
    NatToStringRoundTrip(cents / 100);
    UnsignedCents(s, whole, frac, cents);
  }

  // ---------------------------------------------------------------- validation

  /** `!formData.amount || parseFloat(formData.amount) <= 0`: NaN compares false, so only an
      empty amount or a number at most 0 is refused. */
  function AmountError(a: string): Option<string> {
    var x := ParseFloat(a);
    if a == "" || (x.Finite? && x.value <= 0.0) then Some(AmountNotPositive) else None
  }

  function RequiredError(v: string, message: string): Option<string> {
    if v == "" then Some(message) else None
  }

  /** The description is optional; an error only past 500 characters. */
  function DescriptionError(d: string): Option<string> {
    if d != "" && |d| > 500 then Some(DescriptionTooLong) else None
  }

  /** A typed amount passes exactly when it is more than zero cents. */
  lemma TypedAmountRule(cents: nat)
    ensures AmountError(CentsText(cents)).None? <==> cents > 0
  {
    ParseCentsText(cents);
  }

  lemma NegativeAmountRefused()
    ensures AmountError("-5") == Some(AmountNotPositive)
  {
    TrimStartKeeps("-5");
    var u := "-5"[1..];
    assert u == "5" && LeadingDigits(u) == 1 && u[..1] == "5";
  }

  lemma UnreadableAmountPasses()
    ensures AmountError("abc").None?
  {
    TrimStartKeeps("abc");
    assert LeadingDigits("abc") == 0;
  }

  /** A negative amount is refused; text `parseFloat` cannot read is let through. */
  lemma AmountExamples()
    ensures AmountError("-5") == Some(AmountNotPositive)
    ensures AmountError("") == Some(AmountNotPositive)
    ensures AmountError("abc").None?
  {
    NegativeAmountRefused();
    UnreadableAmountPasses();
  }

  /** The messages `validateForm` collects for the amount, category, date and description. */
  predicate Clean(form: Form<TxField>) {
    && AmountError(Field(form, Amount)).None?
    && RequiredError(Field(form, CategoryId), CategoryRequired).None?
    && RequiredError(Field(form, Date), DateRequired).None?
    && DescriptionError(Field(form, Description)).None?
  }

  /** `validateForm`: the four checks in order, then the dictionary of their messages. */
  method Validate(form: Form<TxField>) returns (errors: Errors<TxField>, valid: bool)
    ensures Reports(errors, Amount, AmountError(Field(form, Amount)))
    ensures Reports(errors, CategoryId, RequiredError(Field(form, CategoryId), CategoryRequired))
    ensures Reports(errors, Date, RequiredError(Field(form, Date), DateRequired))
    ensures Reports(errors, Description, DescriptionError(Field(form, Description)))
    ensures Type !in errors
    ensures valid <==> Clean(form)
    ensures valid <==> errors == map[]
  {
    var a := AmountError(Field(form, Amount));
    var c := RequiredError(Field(form, CategoryId), CategoryRequired);
    var d := RequiredError(Field(form, Date), DateRequired);
    var e := DescriptionError(Field(form, Description));
    errors := map[];
    if a.Some? { errors := errors[Amount := a.value]; }
    if c.Some? { errors := errors[CategoryId := c.value]; }
    if d.Some? { errors := errors[Date := d.value]; }
    if e.Some? { errors := errors[Description := e.value]; }
    valid := errors == map[];
  }

  /** The form passes exactly when the amount is present and not a number at most 0, a category
      and a date are chosen, and the description has at most 500 characters. */
  lemma CleanMeans(form: Form<TxField>)
    ensures Clean(form) <==>
      && Field(form, Amount) != ""
      && (ParseFloat(Field(form, Amount)).NaN? || ParseFloat(Field(form, Amount)).value > 0.0)
      && Field(form, CategoryId) != "" && Field(form, Date) != ""
      && |Field(form, Description)| <= 500
  {
  }

  // ---------------------------------------------------------------- submit

  /** `{...formData, amount: parseFloat(formData.amount)}`: the amount as a number, every other
      field as typed. */
  datatype Submission = Submission(amount: Number, fields: Form<TxField>)

  /** `handleSubmit`: nothing is sent unless the form is valid; a valid form is sent with its
      amount converted, never a number at most 0, and the other fields unchanged. */
  method Submit(form: Form<TxField>) returns (sent: Option<Submission>)
    ensures sent.Some? <==> Clean(form)
    ensures sent.Some? ==> sent.value.amount == ParseFloat(Field(form, Amount))
    ensures sent.Some? ==> sent.value.amount.NaN? || sent.value.amount.value > 0.0
    ensures sent.Some? ==> Amount !in sent.value.fields
    ensures sent.Some? ==> forall k :: k != Amount ==> Field(sent.value.fields, k) == Field(form, k)
  {
    var errors, valid := Validate(form);
    if !valid {
      return None;
    }
    sent := Some(Submission(ParseFloat(Field(form, Amount)), form - {Amount}));
  }

  // ---------------------------------------------------------------- editing

  /** The transaction being edited, as the list hands it over: `amount?.toString()`,
      `description`, `type`, `category?.id` and `date`, each possibly missing. */
  datatype Shown = Shown(amountText: Option<string>, description: Option<string>, kind: Option<string>,
                         categoryId: Option<nat>, date: Option<string>)

  /** `x || fallback`: a missing or empty value takes the fallback. */
  function OrElse(x: Option<string>, fallback: string): (r: string)
    ensures x.Some? && x.value != "" ==> r == x.value
    ensures x.None? || x.value == "" ==> r == fallback
  {
    if x.Some? && x.value != "" then x.value else fallback
  }

  /** The effect that loads a transaction into the form. */
  function FromTransaction(t: Shown, today: string): Form<TxField> {
    map[Amount := OrElse(t.amountText, ""),
        Description := OrElse(t.description, ""),
        Type := OrElse(t.kind, "expense"),
        CategoryId := if t.categoryId.Some? then NatToString(t.categoryId.value) else "",
        Date := OrElse(t.date, today)]
  }

  /** Editing shows the transaction's values: the type defaults to expense and the date to today,
      the category's id is written out so that it reads back as the same id, and the other fields
      default to empty. */
  lemma EditShowsTransaction(t: Shown, today: string)
    ensures var form := FromTransaction(t, today);
            && Field(form, Type) == (if t.kind.Some? && t.kind.value != "" then t.kind.value else "expense")
            && Field(form, Date) == (if t.date.Some? && t.date.value != "" then t.date.value else today)
            && Field(form, Description) == t.description.GetOr("")
            && Field(form, Amount) == t.amountText.GetOr("")
            && (t.categoryId.Some? <==> Field(form, CategoryId) != "")
            && (t.categoryId.Some? ==> AllDigits(Field(form, CategoryId))
                                       && DigitsValue(Field(form, CategoryId)) == t.categoryId.value)
  {
    if t.categoryId.Some? {
      NatToStringRoundTrip(t.categoryId.value);
    }
  }

  /** A transaction with a category, a date and a short description loses no check but the
      amount's: the form it loads is valid exactly when its amount is. */
  lemma EditedFormChecksOnlyAmount(t: Shown, today: string)
    requires t.categoryId.Some? && (today != "" || (t.date.Some? && t.date.value != ""))
    requires |t.description.GetOr("")| <= 500
    ensures var form := FromTransaction(t, today);
            Clean(form) <==> AmountError(Field(form, Amount)).None?
  {
    EditShowsTransaction(t, today);
  }

  // ---------------------------------------------------------------- categories offered

  datatype Category = Category(id: nat, name: string)

  /** The filter's predicate: a category called "income" in any case only for an income. */
  predicate Offered(c: Category, kind: string) {
    Lower(c.name) != "income" || kind == "income"
  }

  /** `filteredCategories`: `categories.filter(...)`. */
  function FilteredCategories(cats: seq<Category>, kind: string): (r: seq<Category>)
    ensures |r| <= |cats|
    ensures forall c :: c in r <==> c in cats && Offered(c, kind)
  {
    if cats == [] then []
    else if Offered(cats[0], kind) then [cats[0]] + FilteredCategories(cats[1..], kind)
    else FilteredCategories(cats[1..], kind)
  }

  /** The filter keeps the list's order: it works piece by piece. */
  lemma {:induction false} FilteredAppend(a: seq<Category>, b: seq<Category>, kind: string)
    ensures FilteredCategories(a + b, kind) == FilteredCategories(a, kind) + FilteredCategories(b, kind)
  {
    if a == [] {
      assert a + b == b;
    } else {
      assert (a + b)[0] == a[0];
      assert (a + b)[1..] == a[1..] + b;
      FilteredAppend(a[1..], b, kind);
    }
  }

  /** For an income every category is offered, in the list's order. */
  lemma {:induction false} IncomeOffersAll(cats: seq<Category>)
    ensures FilteredCategories(cats, "income") == cats
  {
    if cats != [] {
      IncomeOffersAll(cats[1..]);
    }
  }

  /** For an expense, the categories named "Income" or "INCOME" are not offered, and a category
      with any other name is. */
  lemma ExpenseHidesIncome(cats: seq<Category>, id: nat)
    ensures Category(id, "Income") !in FilteredCategories(cats, "expense")
    ensures Category(id, "INCOME") !in FilteredCategories(cats, "expense")
    ensures forall c :: c in cats && Lower(c.name) != "income" ==> c in FilteredCategories(cats, "expense")
  {
    assert Lower("Income") == "income";
    assert Lower("INCOME") == "income";
  }
}
