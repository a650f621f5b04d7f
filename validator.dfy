/** Per-field validation of an answer, as the form filler and the live
    preview run it. Both run the same ordered chain of checks and return
    the first failure; they differ only in the email and phone shapes,
    whose regular expressions lost their backslashes in the preview. The
    user's own `pattern` runs on the host regular-expression engine and is
    a parameter here. */
module Validator {
  import opened Basics
  import opened FormModel
  import opened JsText

  /** What a field can hold: nothing yet, a string, a number, the string
      array of a checkbox group, or a picked file (by its name). */
  datatype Value = Absent | Str(s: string) | Num(n: int) | List(items: seq<string>) | Upload(fileName: string)

  /** JavaScript truthiness of a value. */
  predicate Truthy(v: Value) {
    match v
    case Absent => false
    case Str(s) => s != ""
    case Num(n) => n != 0
    case List(_) => true
    case Upload(_) => true
  }

  /** The required check's notion of "no answer": falsy, or an empty array. */
  predicate Empty(v: Value) {
    !Truthy(v) || (v.List? && v.items == [])
  }

  function Join(items: seq<string>): string {
    if items == [] then ""
    else if |items| == 1 then items[0]
    else items[0] + "," + Join(items[1..])
  }

  /** The string a regular expression's `test` sees for a value. */
  function JsString(v: Value): string {
    match v
    case Absent => "undefined"
    case Str(s) => s
    case Num(n) => Decimal(n)
    case List(items) => Join(items)
    case Upload(_) => "[object File]"
  }

  datatype Issue =
    | Required
    | TooShort(minLength: int)
    | TooLong(maxLength: int)
    | BadPattern
    | BelowMin(min: int)
    | AboveMax(max: int)
    | BadEmail
    | BadPhone

  /** The number written in `t`, when `t` is an optional '-' followed by
      decimal digits. */
  function ReadDecimal(t: string): Option<int> {
    if t != [] && (forall i :: 0 < i < |t| ==> '0' <= t[i] <= '9') &&
       (t[0] != '-' ==> '0' <= t[0] <= '9')
    then Some(DecimalValue(t))
    else None
  }

  /** Reads a message back as the issue it reports. The eight texts differ
      in their first, second, ninth or twenty-second character; the
      bounded ones carry their bound in decimal. */
  function IssueOfMessage(m: string): Option<Issue> {
    if |m| < 14 then None
    else if m[0] == 'T' then Some(Required)
    else if m[0] == 'I' then Some(BadPattern)
    else if m[0] == 'P' then (if |m| > 21 && m[21] == 'e' then Some(BadEmail) else Some(BadPhone))
    else if m[0] != 'M' then None
    else if m[8] == 'l' then
      if |m| < 30 then None
      else
        var k := ReadDecimal(m[18..|m| - 11]);
        if k.None? then None
        else if m[1] == 'i' then Some(TooShort(k.value))
        else Some(TooLong(k.value))
    else if |m| < 18 then None
    else
      var k := ReadDecimal(m[17..]);
      if k.None? then None
      else if m[1] == 'i' then Some(BelowMin(k.value))
      else Some(AboveMax(k.value))
  }

  /** "Minimum length is n characters" or "Maximum length is n characters". */
  function LengthText(low: bool, n: int): string {
    (if low then "Minimum" else "Maximum") + " length is " + Decimal(n) + " characters"
  }

  /** "Minimum value is n" or "Maximum value is n". */
  function ValueText(low: bool, n: int): string {
    (if low then "Minimum" else "Maximum") + " value is " + Decimal(n)
  }

  /** The characters of `p + t + q` around the middle part `t`. */
  lemma {:induction false} MiddleOf(p: string, t: string, q: string)
    ensures var m := p + t + q;
      |m| == |p| + |t| + |q| && m[|p|..|m| - |q|] == t &&
      forall i :: 0 <= i < |p| ==> m[i] == p[i]
  {
    var m := p + t + q;
    assert m[|p|..|m| - |q|] == t;
  }

  lemma LengthTextReadsBack(low: bool, n: int)
    ensures IssueOfMessage(LengthText(low, n)) == Some(if low then TooShort(n) else TooLong(n))
  {
    var p: string := (if low then "Minimum" else "Maximum") + " length is ";
    var t := Decimal(n);
    assert |p| == 18 && p[0] == 'M' && p[8] == 'l' && (p[1] == 'i' <==> low);
    MiddleOf(p, t, " characters");
    var m := p + t + " characters";
    assert LengthText(low, n) == m;
    assert ReadDecimal(t) == Some(n);
  }

  lemma ValueTextReadsBack(low: bool, n: int)
    ensures IssueOfMessage(ValueText(low, n)) == Some(if low then BelowMin(n) else AboveMax(n))
  {
    var p: string := (if low then "Minimum" else "Maximum") + " value is ";
    var t := Decimal(n);
    assert |p| == 17 && p[0] == 'M' && p[8] == 'v' && (p[1] == 'i' <==> low);
    MiddleOf(p, t, []);
    var m := p + t + [];
    assert ValueText(low, n) == m;
    assert ReadDecimal(t) == Some(n);
  }

  /** The four messages without a bound read back as their issues. */
  lemma FixedMessagesReadBack()
    ensures IssueOfMessage("This field is required") == Some(Required)
    ensures IssueOfMessage("Invalid format") == Some(BadPattern)
    ensures IssueOfMessage("Please enter a valid email address") == Some(BadEmail)
    ensures IssueOfMessage("Please enter a valid phone number") == Some(BadPhone)
  {
    var e, p := "Please enter a valid email address", "Please enter a valid phone number";
    assert |e| > 21 && e[0] == 'P' && e[21] == 'e';
    assert |p| > 21 && p[0] == 'P' && p[21] == 'p';
  }

  /** The message shown for an issue. It is never empty, so an error always
      counts as present, and it names its issue, bound included: reading
      it back gives the issue. */
  function Message(i: Issue): (m: string)
    ensures m != []
    ensures IssueOfMessage(m) == Some(i)
  {
    FixedMessagesReadBack();
    match i
    case Required => "This field is required"
    case TooShort(n) => LengthTextReadsBack(true, n); LengthText(true, n)
    case TooLong(n) => LengthTextReadsBack(false, n); LengthText(false, n)
    case BadPattern => "Invalid format"
    case BelowMin(n) => ValueTextReadsBack(true, n); ValueText(true, n)
    case AboveMax(n) => ValueTextReadsBack(false, n); ValueText(false, n)
    case BadEmail => "Please enter a valid email address"
    case BadPhone => "Please enter a valid phone number"
  }

  /** Different issues, bounds included, give different messages. */
  lemma MessagesDistinct(i: Issue, j: Issue)
    ensures Message(i) == Message(j) <==> i == j
  {
    if Message(i) == Message(j) {
      assert IssueOfMessage(Message(i)) == IssueOfMessage(Message(j));
    }
  }

  /** The result of validating one answer: no error, the first failing
      check, or the exception `value.replace` raises on a non-string value
      of a phone field. */
  datatype Outcome = Pass | Fail(issue: Issue) | Threw

  /** Which copy of the validator runs. */
  datatype Dialect = Filler | Preview

  /** `new RegExp(pattern).test(value)` for a user pattern. */
  type PatternTest = (string, string) -> bool

  // ------------------------------------------------------------- email

  predicate NoSpaceOrAt(s: string) {
    forall i :: 0 <= i < |s| ==> !IsJsSpace(s[i]) && s[i] != '@'
  }

  /** `[^\s@]+\.[^\s@]+` over a whole string. */
  predicate DomainOk(r: string) {
    NoSpaceOrAt(r) && exists k | 1 <= k < |r| - 1 :: r[k] == '.'
  }

  /** The filler's `^[^\s@]+@[^\s@]+\.[^\s@]+$`. */
  predicate FillerEmailOk(s: string) {
    exists i | 0 < i < |s| :: s[i] == '@' && NoSpaceOrAt(s[..i]) && DomainOk(s[i + 1..])
  }

  predicate NoLetterSOrAt(s: string) {
    forall i :: 0 <= i < |s| ==> s[i] != 's' && s[i] != '@'
  }

  /** `[^s@]+.[^s@]+` over a whole string: `.` is any character but a line
      terminator. */
  predicate PreviewDomainOk(r: string) {
    exists k | 1 <= k < |r| - 1 ::
      NoLetterSOrAt(r[..k]) && !IsLineTerminator(r[k]) && NoLetterSOrAt(r[k + 1..])
  }

  /** The preview's `^[^s@]+@[^s@]+.[^s@]+$`. */
  predicate PreviewEmailOk(s: string) {
    exists i | 0 < i < |s| :: s[i] == '@' && NoLetterSOrAt(s[..i]) && PreviewDomainOk(s[i + 1..])
  }

  // ------------------------------------------------------------- phone

  /** `s.replace(/[...]/g, '')` for a character class given as a predicate. */
  function StripChars(s: string, drop: char -> bool): (r: string)
    ensures |r| <= |s|
    ensures forall i :: 0 <= i < |r| ==> !drop(r[i])
    ensures (forall i :: 0 <= i < |s| ==> !drop(s[i])) ==> r == s
  {
    if s == [] then []
    else if drop(s[0]) then StripChars(s[1..], drop)
    else [s[0]] + StripChars(s[1..], drop)
  }

  /** Stripping two pieces is stripping each: the kept characters stay in
      their order. */
  lemma {:induction false} StripCharsAppend(a: string, b: string, drop: char -> bool)
    ensures StripChars(a + b, drop) == StripChars(a, drop) + StripChars(b, drop)
  {
    if a == [] {
      assert a + b == b;
    } else {
      assert (a + b)[0] == a[0] && (a + b)[1..] == a[1..] + b;
      StripCharsAppend(a[1..], b, drop);
    }
  }

  /** The filler's `[-\s()]`. */
  predicate FillerPhoneNoise(c: char) {
    c == '-' || IsJsSpace(c) || c == '(' || c == ')'
  }

  /** The preview's `[-s()]`. */
  predicate PreviewPhoneNoise(c: char) {
    c == '-' || c == 's' || c == '(' || c == ')'
  }

  predicate IsDigit(c: char) {
    '0' <= c <= '9'
  }

  predicate IsLetterD(c: char) {
    c == 'd'
  }

  /** `^[+]?[1-9]T{0,15}$` where `T` is the tail character class. */
  predicate PhoneShape(t: string, tail: char -> bool) {
    var body := PhoneBody(t);
    1 <= |body| <= 16 && '1' <= body[0] <= '9' && forall j :: 1 <= j < |body| ==> tail(body[j])
  }

  /** The number without its optional leading `+`. */
  function PhoneBody(t: string): string {
    if |t| > 0 && t[0] == '+' then t[1..] else t
  }

  /** The filler's phone check: noise stripped, then `^[\+]?[1-9][\d]{0,15}$`. */
  predicate FillerPhoneOk(s: string) {
    PhoneShape(StripChars(s, FillerPhoneNoise), IsDigit)
  }

  /** The preview's phone check: `-`, `s`, `(`, `)` stripped, then
      `^[+]?[1-9][d]{0,15}$`. */
  predicate PreviewPhoneOk(s: string) {
    PhoneShape(StripChars(s, PreviewPhoneNoise), IsLetterD)
  }

  predicate EmailOk(d: Dialect, s: string) {
    match d
    case Filler => FillerEmailOk(s)
    case Preview => PreviewEmailOk(s)
  }

  predicate PhoneOk(d: Dialect, s: string) {
    match d
    case Filler => FillerPhoneOk(s)
    case Preview => PreviewPhoneOk(s)
  }

  // -------------------------------------------------------------- chain

  /** The minLength check fails: a truthy bound above the length. */
  predicate TooShortFor(r: Rules, s: string) {
    r.minLength.Some? && r.minLength.value != 0 && |s| < r.minLength.value
  }

  /** The maxLength check fails: a truthy bound below the length. */
  predicate TooLongFor(r: Rules, s: string) {
    r.maxLength.Some? && r.maxLength.value != 0 && |s| > r.maxLength.value
  }

  /** The pattern check fails: a non-empty pattern the answer does not
      match. */
  predicate PatternFails(r: Rules, s: string, test: PatternTest) {
    r.pattern.Some? && r.pattern.value != "" && !test(r.pattern.value, s)
  }

  predicate StringRulesMet(r: Rules, s: string, test: PatternTest) {
    !TooShortFor(r, s) && !TooLongFor(r, s) && !PatternFails(r, s, test)
  }

  predicate BelowMinFor(r: Rules, n: int) {
    r.min.Some? && n < r.min.value
  }

  predicate AboveMaxFor(r: Rules, n: int) {
    r.max.Some? && n > r.max.value
  }

  /** The string checks in order: minLength, maxLength, pattern. A zero or
      absent length bound and an empty pattern are skipped. */
  function StringIssue(r: Rules, s: string, test: PatternTest): (o: Option<Issue>)
    ensures TooShortFor(r, s) ==> o == Some(TooShort(r.minLength.value))
    ensures !TooShortFor(r, s) && TooLongFor(r, s) ==> o == Some(TooLong(r.maxLength.value))
    ensures !TooShortFor(r, s) && !TooLongFor(r, s) && PatternFails(r, s, test) ==> o == Some(BadPattern)
    ensures o.None? <==> StringRulesMet(r, s, test)
  {
    if r.minLength.Some? && r.minLength.value != 0 && |s| < r.minLength.value then
      Some(TooShort(r.minLength.value))
    else if r.maxLength.Some? && r.maxLength.value != 0 && |s| > r.maxLength.value then
      Some(TooLong(r.maxLength.value))
    else if r.pattern.Some? && r.pattern.value != "" && !test(r.pattern.value, s) then
      Some(BadPattern)
    else None
  }

  /** The number checks in order: min, then max; a bound of 0 counts. */
  function NumberIssue(r: Rules, n: int): (o: Option<Issue>)
    ensures BelowMinFor(r, n) ==> o == Some(BelowMin(r.min.value))
    ensures !BelowMinFor(r, n) && AboveMaxFor(r, n) ==> o == Some(AboveMax(r.max.value))
    ensures o.None? <==> !BelowMinFor(r, n) && !AboveMaxFor(r, n)
  {
    if r.min.Some? && n < r.min.value then Some(BelowMin(r.min.value))
    else if r.max.Some? && n > r.max.value then Some(AboveMax(r.max.value))
    else None
  }

  /** The required check fails: a required field with no answer. */
  predicate MissingRequired(x: Field, v: Value) {
    x.required && Empty(v)
  }

  /** Every rule that applies to the answer holds: string rules for a
      string, number rules for a number, none for a falsy answer or a
      field without rules. */
  predicate RulesMet(x: Field, v: Value, test: PatternTest) {
    !Truthy(v) || x.validation.None? ||
    ((v.Str? ==> StringRulesMet(x.validation.value, v.s, test)) &&
     (v.Num? ==> !BelowMinFor(x.validation.value, v.n) && !AboveMaxFor(x.validation.value, v.n)))
  }

  /** The type's own shape holds for a truthy answer; a phone number must
      be a string. */
  predicate ShapeMet(d: Dialect, x: Field, v: Value) {
    !Truthy(v) ||
    ((x.kind == Email ==> EmailOk(d, JsString(v))) && (x.kind == Phone ==> v.Str? && PhoneOk(d, v.s)))
  }

  /** `validateField(field, value)`: no error exactly when every check
      holds; otherwise the first failing check in the source's order
      (required, the rules, the type's shape) names the error, and a phone
      field given a non-string answer throws. */
  function ValidateField(d: Dialect, x: Field, v: Value, test: PatternTest): (o: Outcome)
    ensures o == Pass <==> !MissingRequired(x, v) && RulesMet(x, v, test) && ShapeMet(d, x, v)
    ensures o == Fail(Required) <==> MissingRequired(x, v)
  {
    if x.required && Empty(v) then Fail(Required)
    else if Truthy(v) && x.validation.Some? && v.Str? && StringIssue(x.validation.value, v.s, test).Some? then
      Fail(StringIssue(x.validation.value, v.s, test).value)
    else if Truthy(v) && x.validation.Some? && v.Num? && NumberIssue(x.validation.value, v.n).Some? then
      Fail(NumberIssue(x.validation.value, v.n).value)
    else if x.kind == Email && Truthy(v) then
      if EmailOk(d, JsString(v)) then Pass else Fail(BadEmail)
    else if x.kind == Phone && Truthy(v) then
      if !v.Str? then Threw else if PhoneOk(d, v.s) then Pass else Fail(BadPhone)
    else Pass
  }

  /** When some check fails, the first failing one in the source's order
      names the outcome: the required check, then the rules (string checks
      for a string, number checks for a number), then the type's shape, where
      a phone field given a non-string answer throws. */
  lemma FirstFailingCheck(d: Dialect, x: Field, v: Value, test: PatternTest)
    ensures var o := ValidateField(d, x, v, test);
      (!MissingRequired(x, v) && !RulesMet(x, v, test) ==>
        o == Fail(if v.Str? then StringIssue(x.validation.value, v.s, test).value
                  else NumberIssue(x.validation.value, v.n).value)) &&
      (!MissingRequired(x, v) && RulesMet(x, v, test) && !ShapeMet(d, x, v) ==>
        o == if x.kind == Email then Fail(BadEmail) else if v.Str? then Fail(BadPhone) else Threw)
  {
  }

  /** A non-empty string answer that passes the required check meets the
      string checks first: their first failure is the result, ahead of the
      email and phone shapes. */
  lemma StringChecksComeFirst(d: Dialect, x: Field, s: string, test: PatternTest)
    requires s != [] && x.validation.Some?
    ensures StringIssue(x.validation.value, s, test).Some? ==>
      ValidateField(d, x, Str(s), test) == Fail(StringIssue(x.validation.value, s, test).value)
    ensures StringIssue(x.validation.value, s, test).None? ==>
      ValidateField(d, x, Str(s), test) ==
        if x.kind == Email then (if EmailOk(d, s) then Pass else Fail(BadEmail))
        else if x.kind == Phone then (if PhoneOk(d, s) then Pass else Fail(BadPhone))
        else Pass
  {
  }

  /** The two copies agree on every check but the email and phone shapes. */
  lemma DialectsAgreeBeforeShapes(x: Field, v: Value, test: PatternTest)
    ensures x.kind != Email && x.kind != Phone ==>
      ValidateField(Filler, x, v, test) == ValidateField(Preview, x, v, test)
    ensures ValidateField(Filler, x, v, test).Fail? &&
            ValidateField(Filler, x, v, test).issue !in {BadEmail, BadPhone} ==>
      ValidateField(Preview, x, v, test) == ValidateField(Filler, x, v, test)
  {
  }

  // ---------------------------------------------- the email shape proved

  /** Every address of the form `local@host.tld` with whitespace- and
      `@`-free parts passes the filler's email check. */
  lemma FillerEmailAccepts(local: string, host: string, tld: string)
    requires local != [] && host != [] && tld != []
    requires NoSpaceOrAt(local) && NoSpaceOrAt(host) && NoSpaceOrAt(tld)
    ensures FillerEmailOk(local + "@" + host + "." + tld)
  {
    var s := local + "@" + host + "." + tld;
    var i := |local|;
    var r := host + "." + tld;
    assert s[..i] == local;
    assert s[i + 1..] == r;
    assert r[|host|] == '.';
    assert NoSpaceOrAt(r) by {
      forall j | 0 <= j < |r| ensures !IsJsSpace(r[j]) && r[j] != '@' {
        if j < |host| {
          assert r[j] == host[j];
        } else if j > |host| {
          assert r[j] == tld[j - |host| - 1];
        }
      }
    }
  }

  /** An address the filler accepts has exactly one `@`, no white space,
      and a non-empty part on each side of the `@`. */
  lemma FillerEmailShape(s: string)
    requires FillerEmailOk(s)
    ensures forall j :: 0 <= j < |s| ==> !IsJsSpace(s[j])
    ensures exists i | 0 < i < |s| - 1 ::
      s[i] == '@' && forall j :: 0 <= j < |s| && j != i ==> s[j] != '@'
  {
    var i :| 0 < i < |s| && s[i] == '@' && NoSpaceOrAt(s[..i]) && DomainOk(s[i + 1..]);
    forall j | 0 <= j < |s| && j != i
      ensures s[j] != '@' && !IsJsSpace(s[j])
    {
      if j < i {
        assert s[j] == s[..i][j];
      } else {
        assert s[j] == s[i + 1..][j - i - 1];
      }
    }
  }

  // ------------------------------------------------ the phone shape proved

  /** Noise characters never survive stripping, and a string without any
      is left as it is. */
  lemma {:induction false} StripCleanIsIdentity(s: string, drop: char -> bool)
    requires forall i :: 0 <= i < |s| ==> !drop(s[i])
    ensures StripChars(s, drop) == s
  {
    if s != [] {
      StripCleanIsIdentity(s[1..], drop);
    }
  }

  /** Any run of one to sixteen digits that does not start with 0 is a phone
      number to the filler. */
  lemma FillerPhoneAcceptsDigits(s: string)
    requires 1 <= |s| <= 16 && '1' <= s[0] <= '9'
    requires forall i :: 0 <= i < |s| ==> IsDigit(s[i])
    ensures FillerPhoneOk(s)
  {
    StripCleanIsIdentity(s, FillerPhoneNoise);
  }

  /** To the preview, a stripped number may hold no digit after its first
      character, so any number with two digits is refused. */
  lemma PreviewPhoneRefusesSecondDigit(s: string)
    requires 2 <= |s| && '1' <= s[0] <= '9'
    requires forall i :: 0 <= i < |s| ==> IsDigit(s[i])
    ensures !PreviewPhoneOk(s)
  {
    StripCleanIsIdentity(s, PreviewPhoneNoise);
    var t := StripChars(s, PreviewPhoneNoise);
    assert t == s && t[0] != '+';
    assert PhoneBody(t) == t;
    assert !IsLetterD(PhoneBody(t)[1]);
  }

  // -------------------------------------------------------- worked cases

  const PlainText := Field("f", Text, "Name", None, true, None, None, None, None, None, None)

  lemma RequiredExamples(d: Dialect, test: PatternTest)
    ensures ValidateField(d, PlainText, Str(""), test) == Fail(Required)
    ensures ValidateField(d, PlainText, Str("x"), test) == Pass
    ensures ValidateField(d, PlainText, List([]), test) == Fail(Required)
  {
  }

  lemma NumberExamples(d: Dialect, test: PatternTest)
    ensures var x := PlainText.(kind := Number, validation := Some(NoRules.(min := Some(5), max := Some(10))));
      ValidateField(d, x, Num(12), test) == Fail(AboveMax(10)) &&
      ValidateField(d, x, Num(7), test) == Pass &&
      ValidateField(d, x, Num(3), test) == Fail(BelowMin(5))
    ensures var x := PlainText.(kind := Number, required := false, validation := Some(NoRules.(min := Some(0))));
      ValidateField(d, x, Num(-1), test) == Fail(BelowMin(0)) &&
      ValidateField(d, x, Num(0), test) == Pass
  {
  }

  lemma EmailExamples()
    ensures FillerEmailOk("a@b.com")
    ensures !FillerEmailOk("not-an-email")
  {
    FillerEmailAccepts("a", "b", "com");
    assert "a" + "@" + "b" + "." + "com" == "a@b.com";
    var s := "not-an-email";
    assert forall i :: 0 <= i < |s| ==> s[i] != '@';
  }

  // ------------------------------------- where the two copies disagree

  /** The preview's email shape refuses an ordinary address whose local
      part holds the letter `s`, which the filler accepts. */
  lemma PreviewEmailRefusesLetterS()
    ensures FillerEmailOk("sam@x.com")
    ensures !PreviewEmailOk("sam@x.com")
  {
    FillerEmailAccepts("sam", "x", "com");
    assert "sam" + "@" + "x" + "." + "com" == "sam@x.com";
    var s := "sam@x.com";
    forall i | 0 < i < |s| && s[i] == '@'
      ensures !NoLetterSOrAt(s[..i])
    {
      assert s[..i][0] == 's';
    }
  }

  /** The preview's unescaped `.` lets an address without any dot through,
      which the filler refuses. */
  lemma PreviewEmailAcceptsNoDot()
    ensures PreviewEmailOk("a@bxc")
    ensures !FillerEmailOk("a@bxc")
  {
    var s := "a@bxc";
    var r := s[2..];
    assert r == "bxc";
    assert r[..1] == "b" && r[2..] == "c";
    assert NoLetterSOrAt(r[..1]) && !IsLineTerminator(r[1]) && NoLetterSOrAt(r[2..]);
    assert PreviewDomainOk(r);
    assert s[..1] == "a";
    assert forall k :: 0 <= k < |s| ==> s[k] != '.';
    forall i | 0 < i < |s| && s[i] == '@'
      ensures !DomainOk(s[i + 1..])
    {
      var r := s[i + 1..];
      assert forall k :: 0 <= k < |r| ==> r[k] != '.';
    }
  }

  /** The preview's `[d]` for `[\d]` refuses every phone number with more
      than one digit, while a lone digit passes. */
  lemma PreviewPhoneExamples()
    ensures FillerPhoneOk("5551234")
    ensures !PreviewPhoneOk("5551234")
    ensures PreviewPhoneOk("5")
  {
    FillerPhoneAcceptsDigits("5551234");
    PreviewPhoneRefusesSecondDigit("5551234");
    StripCleanIsIdentity("5", PreviewPhoneNoise);
    assert PhoneBody("5") == "5";
  }

  /** The same answer to the same email field: valid in the filler,
      refused by the preview. */
  lemma PreviewRefusesFillerEmail(test: PatternTest)
    ensures var x := PlainText.(kind := Email);
      ValidateField(Filler, x, Str("sam@x.com"), test) == Pass &&
      ValidateField(Preview, x, Str("sam@x.com"), test) == Fail(BadEmail)
  {
    PreviewEmailRefusesLetterS();
  }
}
