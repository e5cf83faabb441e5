/** The field validators shared by the submission forms, and the messages they report.
    The per-category age limits and the shared duration limits are a `Limits` value given by
    the caller: the constants module that defines them is not part of this model. */
module FormValidation {
  import opened Wrappers
  import opened JsText

  datatype Category = YOUTH | FUTURE | WORLD

  /** A closed range `[min, max]`. */
  datatype Range = Range(min: int, max: int)

  /** `AGE_LIMITS` per category and the shared `DURATION_LIMITS` (minutes). */
  datatype Limits = Limits(youthAge: Range, futureAge: Range, worldAge: Range, duration: Range)

  function AgeLimits(limits: Limits, c: Category): Range {
    match c
    case YOUTH => limits.youthAge
    case FUTURE => limits.futureAge
    case WORLD => limits.worldAge
  }

  /** An uploaded file as the browser describes it: `name`, `size` in bytes and MIME `type`. */
  datatype File = File(name: string, size: int, mimeType: string)

  /** The value kinds `validateRequired` distinguishes. */
  datatype Number = NaN | Finite(value: real) | Infinity(negative: bool)
  datatype FieldValue = Str(s: string) | Num(n: Number) | Bool(b: bool) | StrList(items: seq<string>)

  // ---------------------------------------------------------------------------
  // Validators
  // ---------------------------------------------------------------------------

  /** A character the email pattern's `[^\s@]` class admits. */
  predicate EmailChar(c: char) {
    c != '@' && !IsWhitespace(c)
  }

  /** `/^[^\s@]+@[^\s@]+\.[^\s@]+$/` matches `s` with its `@` at index `at` and the dot it
      requires at index `dot`: one or more admitted characters, `@`, one or more, `.`, one or
      more, and nothing else. */
  predicate EmailMatchAt(s: string, at: int, dot: int) {
    && 0 < at && at + 1 < dot && dot + 1 < |s|
    && s[at] == '@' && s[dot] == '.'
    && forall k :: 0 <= k < |s| && k != at ==> EmailChar(s[k])
  }

  /** `validateEmail`: the pattern matches somewhere the regular expression could place it.
      The shortest address it accepts, `a@b.c`, has five characters. */
  predicate ValidateEmail(email: string)
    ensures ValidateEmail(email) ==> |email| >= 5
  {
    exists at, dot | 0 <= at < |email| && 0 <= dot < |email| :: EmailMatchAt(email, at, dot)
  }

  /** `validateAge(age, category)` applied to a `parseInt` result: `NaN` compares false, and
      a number passes exactly when it lies in the range the category's `invalidAge` message
      names. */
  predicate ValidateAge(age: Option<int>, c: Category, limits: Limits)
    ensures ValidateAge(age, c, limits) <==>
      age.Some? && InvalidAgeMessage(limits, c).min <= age.value <= InvalidAgeMessage(limits, c).max
  {
    age.Some? && AgeLimits(limits, c).min <= age.value && age.value <= AgeLimits(limits, c).max
  }

  /** `validateDuration(duration)` applied to a `parseInt` result: a number passes exactly
      when it lies in the range the `invalidDuration` message names. */
  predicate ValidateDuration(duration: Option<int>, limits: Limits)
    ensures ValidateDuration(duration, limits) <==>
      duration.Some? && InvalidDurationMessage(limits).min <= duration.value <= InvalidDurationMessage(limits).max
  {
    duration.Some? && limits.duration.min <= duration.value && duration.value <= limits.duration.max
  }

  /** `validateFileSize(file, maxSize)`. */
  predicate ValidateFileSize(file: File, maxSize: int) {
    file.size <= maxSize
  }

  /** `validateFileType(file, allowedTypes)`. */
  predicate ValidateFileType(file: File, allowedTypes: seq<string>) {
    file.mimeType in allowedTypes
  }

  /** `validateRequired(value)`: one rule per kind of value. */
  predicate ValidateRequired(value: FieldValue) {
    match value
    case Str(s) => |Trim(s)| > 0
    case Num(n) => n != NaN && (n.Infinity? ==> !n.negative) && (n.Finite? ==> n.value > 0.0)
    case Bool(b) => b == true
    case StrList(items) => |items| > 0
  }

  /** The number of words `text.trim().split(/\s+/).filter(word => word.length > 0)` finds. */
  function WordCount(text: string): nat {
    |NonEmpty(SplitOnWhitespace(Trim(text)))|
  }

  /** `validateWordCount(text, maxWords)`. */
  predicate ValidateWordCount(text: string, maxWords: int) {
    WordCount(text) <= maxWords
  }

  // ---------------------------------------------------------------------------
  // Messages (tags in place of localised strings)
  // ---------------------------------------------------------------------------

  datatype Message =
    | Required
    | InvalidEmail
    | InvalidAge(min: int, max: int)
    | InvalidDuration(min: int, max: int)
    | FileTooLarge(maxSize: int)
    | InvalidFileType
    | WordCountExceeded(maxWords: int)
    | MinCrewMembers
    | AllAgreementsRequired

  /** `invalidAge(category)`: names that category's bounds. */
  function InvalidAgeMessage(limits: Limits, c: Category): Message {
    InvalidAge(AgeLimits(limits, c).min, AgeLimits(limits, c).max)
  }

  /** `invalidDuration`: names the shared duration bounds. */
  function InvalidDurationMessage(limits: Limits): Message {
    InvalidDuration(limits.duration.min, limits.duration.max)
  }

  /** A value of the `FormErrors` dictionary: the empty string a change handler writes, or a
      message. Only a message is truthy. */
  datatype ErrorText = Blank | Shown(message: Message)

  /** `formErrors[key]` is truthy. */
  predicate HasError<K>(errors: map<K, ErrorText>, key: K) {
    key in errors && errors[key] != Blank
  }

  // ---------------------------------------------------------------------------
  // Properties
  // ---------------------------------------------------------------------------

  /** The number of occurrences of `c` in `s` is one exactly when `s[i]` is the only one. */
  lemma OnlyOccurrence(s: string, c: char, i: int)
    requires 0 <= i < |s| && s[i] == c
    ensures multiset(s)[c] == 1 <==> forall k :: 0 <= k < |s| && k != i ==> s[k] != c
  {
    assert s == s[..i] + [c] + s[i + 1..];
    assert multiset(s) == multiset(s[..i]) + multiset{c} + multiset(s[i + 1..]);
    assert (c in s[..i] || c in s[i + 1..]) <==> exists k :: 0 <= k < |s| && k != i && s[k] == c by {
      forall k | 0 <= k < |s| && k != i && s[k] == c ensures c in s[..i] || c in s[i + 1..] {
        if k < i { assert s[..i][k] == c; } else { assert s[i + 1..][k - i - 1] == c; }
      }
    }
  }

  /** The part after `@` has a `.` with at least one character on each side. */
  predicate HasInnerDot(domain: string) {
    exists k | 0 < k < |domain| - 1 :: domain[k] == '.'
  }

  /** `validateEmail` accepts exactly the strings that have one `@` and no whitespace, a
      non-empty part before the `@`, and a `.` after it with a character on each side. */
  lemma ValidateEmailIff(s: string)
    ensures ValidateEmail(s) <==>
      && NoWhitespace(s)
      && multiset(s)['@'] == 1
      && 0 < IndexOf(s, '@')
      && HasInnerDot(s[IndexOf(s, '@') + 1..])
  {
    var at := IndexOf(s, '@');
    if ValidateEmail(s) {
      var a, dot :| 0 <= a < |s| && 0 <= dot < |s| && EmailMatchAt(s, a, dot);
      assert at == a;
      OnlyOccurrence(s, '@', at);
      var d := s[at + 1..];
      assert d[dot - at - 1] == '.';
      assert NoWhitespace(s) by {
        assert forall k :: 0 <= k < |s| && k != at ==> !IsWhitespace(s[k]);
      }
    }
    if && NoWhitespace(s) && multiset(s)['@'] == 1 && 0 < at && HasInnerDot(s[at + 1..]) {
      var d := s[at + 1..];
      var k :| 0 < k < |d| - 1 && d[k] == '.';
      assert '@' in multiset(s);
      OnlyOccurrence(s, '@', at);
      assert s[at + 1 + k] == '.';
      assert EmailMatchAt(s, at, at + 1 + k);
    }
  }

  /** An address the pattern accepts is never blank, so the forms' `required` check on a
      trimmed email can only fire where `validateEmail` also fails. */
  lemma ValidEmailIsNotBlank(s: string)
    requires ValidateEmail(s)
    ensures !AllWhitespace(s)
  {
    var at, dot :| 0 <= at < |s| && 0 <= dot < |s| && EmailMatchAt(s, at, dot);
    assert EmailChar(s[0]);
  }

  /** The three examples that fix the pattern's shape. */
  lemma ValidateEmailExamples()
    ensures ValidateEmail("a@b.co")
    ensures !ValidateEmail("a@b")
    ensures !ValidateEmail("a b@c.com")
  {
    assert EmailMatchAt("a@b.co", 1, 3);
    ValidateEmailIff("a@b");
    assert IndexOf("a@b", '@') == 1;
    assert !HasInnerDot("b");
    ValidateEmailIff("a b@c.com");
    assert IsWhitespace("a b@c.com"[1]);
  }

  /** An age typed as the decimal numeral of `n` (after any whitespace, and followed by
      anything that cannot continue it) passes exactly when `n` lies in the category's range,
      and the `invalidAge` message of that category names exactly that range. */
  lemma ValidateAgeOfNumeral(limits: Limits, c: Category, ws: string, n: int, rest: string)
    requires AllWhitespace(ws)
    requires rest == [] || EndsNumeral(rest[0])
    ensures ValidateAge(ParseInt(ws + IntToDecimal(n) + rest), c, limits) <==>
      InvalidAgeMessage(limits, c).min <= n <= InvalidAgeMessage(limits, c).max
  {
    ParseIntReadsDecimal(ws, n, rest);
  }

  /** A duration typed as the decimal numeral of `n` passes exactly when `n` lies in the
      duration range, which the `invalidDuration` message names. */
  lemma ValidateDurationOfNumeral(limits: Limits, ws: string, n: int, rest: string)
    requires AllWhitespace(ws)
    requires rest == [] || EndsNumeral(rest[0])
    ensures ValidateDuration(ParseInt(ws + IntToDecimal(n) + rest), limits) <==>
      InvalidDurationMessage(limits).min <= n <= InvalidDurationMessage(limits).max
  {
    ParseIntReadsDecimal(ws, n, rest);
  }

  /** An unparseable age or duration (`NaN`) always fails; the range bounds themselves pass
      and the values just outside them fail. */
  lemma RangeChecksAtBounds(limits: Limits, c: Category)
    requires AgeLimits(limits, c).min <= AgeLimits(limits, c).max
    requires limits.duration.min <= limits.duration.max
    ensures !ValidateAge(None, c, limits) && !ValidateDuration(None, limits)
    ensures ValidateAge(Some(AgeLimits(limits, c).min), c, limits)
    ensures ValidateAge(Some(AgeLimits(limits, c).max), c, limits)
    ensures !ValidateAge(Some(AgeLimits(limits, c).min - 1), c, limits)
    ensures !ValidateAge(Some(AgeLimits(limits, c).max + 1), c, limits)
    ensures ValidateDuration(Some(limits.duration.min), limits)
    ensures ValidateDuration(Some(limits.duration.max), limits)
    ensures !ValidateDuration(Some(limits.duration.min - 1), limits)
    ensures !ValidateDuration(Some(limits.duration.max + 1), limits)
  {
  }

  /** A required string passes exactly when it holds a non-whitespace character. */
  lemma ValidateRequiredString(s: string)
    ensures ValidateRequired(Str(s)) <==> exists i :: 0 <= i < |s| && !IsWhitespace(s[i])
  {
  }

  /** The size limit is inclusive: a file passes a limit equal to its size and fails any
      smaller one, and passing a limit means passing every larger one. */
  lemma ValidateFileSizeInclusive(file: File, maxSize: int, larger: int)
    requires maxSize <= larger
    ensures ValidateFileSize(file, file.size) && !ValidateFileSize(file, file.size - 1)
    ensures ValidateFileSize(file, maxSize) ==> ValidateFileSize(file, larger)
  {
  }

  /** The type check passes exactly when the file's MIME type is one of the allowed types,
      and allowing more types never rejects a file that passed. */
  lemma ValidateFileTypeIff(file: File, allowedTypes: seq<string>, more: seq<string>)
    ensures ValidateFileType(file, allowedTypes) <==> exists i :: 0 <= i < |allowedTypes| && allowedTypes[i] == file.mimeType
    ensures ValidateFileType(file, allowedTypes) ==> ValidateFileType(file, allowedTypes + more)
  {
  }

  /** The other kinds `validateRequired` accepts: a number passes exactly when it is greater
      than zero, so `NaN`, zero and negative numbers fail; a boolean passes exactly when it is
      `true`; a list passes exactly when it has an item. */
  lemma ValidateRequiredOtherKinds(x: real, b: bool, items: seq<string>)
    ensures !ValidateRequired(Num(NaN))
    ensures ValidateRequired(Num(Finite(x))) <==> x > 0.0
    ensures ValidateRequired(Num(Infinity(false))) && !ValidateRequired(Num(Infinity(true)))
    ensures ValidateRequired(Bool(b)) <==> b
    ensures ValidateRequired(StrList(items)) <==> |items| > 0
  {
  }

  /** The word count is the number of words: maximal runs of non-whitespace characters. */
  lemma WordCountCountsWords(text: string)
    ensures WordCount(text) == |Words(text)|
  {
    SplitYieldsWords(Trim(text));
    WordsOfTrim(text);
  }

  /** `validateWordCount` compares the number of words with the ceiling. */
  lemma ValidateWordCountIff(text: string, maxWords: int)
    ensures ValidateWordCount(text, maxWords) <==> |Words(text)| <= maxWords
  {
    WordCountCountsWords(text);
  }

  /** Text that is only whitespace has no words, so it passes any ceiling that is not
      negative. */
  lemma BlankTextHasNoWords(text: string, maxWords: int)
    requires AllWhitespace(text) && maxWords >= 0
    ensures WordCount(text) == 0 && ValidateWordCount(text, maxWords)
  {
    WordCountCountsWords(text);
    WordsOfBlank(text);
  }

  /** Two texts joined by whitespace have as many words as the two together. */
  lemma WordCountOfJoin(a: string, sep: string, b: string)
    requires AllWhitespace(sep) && sep != []
    ensures WordCount(a + sep + b) == WordCount(a) + WordCount(b)
  {
    WordsOfJoin(a, sep, b);
    WordCountCountsWords(a + sep + b);
    WordCountCountsWords(a);
    WordCountCountsWords(b);
  }

  lemma WordsOfJoin(a: string, sep: string, b: string)
    requires AllWhitespace(sep) && sep != []
    ensures Words(a + sep + b) == Words(a) + Words(b)
  {
    assert a + sep + b == a + (sep + b);
    WordsOfConcat(a, sep + b);
    assert (sep + b)[|sep|..] == b;
    WordsSkipLeading(sep + b, |sep|);
  }
}
