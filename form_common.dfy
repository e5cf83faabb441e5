/** What the Youth and World submission forms share: the file slots and agreement flags of
    their snapshots, the agreements sub-record they persist, and the two ways their error
    dictionaries change (a check that fails adds its message; an edited field blanks its own
    entry). */
module FormCommon {
  import opened Wrappers
  import opened JsText
  import opened FormValidation

  /** The three uploads each form asks for. */
  datatype FileSlot = FilmFile | PosterFile | ProofFile

  /** The four checkboxes of the terms section (`agreement1` .. `agreement4`). */
  datatype AgreementFlag = Agreement1 | Agreement2 | Agreement3 | Agreement4

  /** The `agreements` sub-record of a persisted submission. */
  datatype AgreementsRecord = AgreementsRecord(copyright: bool, terms: bool, promotional: bool, finalDecision: bool)

  /** The status every persisted submission starts with. */
  const Submitted: string := "submitted"

  /** The outcome of a check that fails with `required` when `missing` holds. */
  function RequiredIf(missing: bool): Option<Message> {
    if missing then Some(Required) else None
  }

  /** The check of a numeric input read with `parseInt`: `required` when empty, otherwise
      `invalid` when the parsed number fails `valid`. */
  function NumberOutcome(value: string, parsedValid: bool, invalid: Message): Option<Message> {
    if value == "" then Some(Required)
    else if !parsedValid then Some(invalid)
    else None
  }

  /** The duration check shared by both forms. */
  function DurationOutcome(value: string, limits: Limits): Option<Message> {
    NumberOutcome(value, ValidateDuration(ParseInt(value), limits), InvalidDurationMessage(limits))
  }

  /** The age check shared by both forms, against the limits of category `c`. */
  function AgeOutcome(value: string, c: Category, limits: Limits): Option<Message> {
    NumberOutcome(value, ValidateAge(ParseInt(value), c, limits), InvalidAgeMessage(limits, c))
  }

  /** The email check shared by both forms: `required` when blank after trimming, otherwise
      `invalidEmail` when the untrimmed value fails the pattern. */
  function EmailOutcome(value: string): Option<Message> {
    if AllWhitespace(value) then Some(Required)
    else if !ValidateEmail(value) then Some(InvalidEmail)
    else None
  }

  /** The entry of a field that must be present: `required` exactly when it is missing. */
  function RequiredUnless(present: bool): Option<ErrorText> {
    if present then None else Some(Shown(Required))
  }

  /** The entry of a field with a validator: none when the value passes, otherwise
      `required` when it is missing and `invalid` when it is malformed. */
  function CheckedEntry(passes: bool, missing: bool, invalid: Message): Option<ErrorText> {
    if passes then None else if missing then Some(Shown(Required)) else Some(Shown(invalid))
  }

  /** The duration check leaves `required` for an empty value and `invalidDuration` for
      one that does not parse to a number within the limits; the empty string never passes,
      so a value never gets both. */
  lemma DurationOutcomeEntry(value: string, limits: Limits)
    ensures Reported(DurationOutcome(value, limits)) ==
      CheckedEntry(ValidateDuration(ParseInt(value), limits), value == "", InvalidDurationMessage(limits))
  {
    if value == "" {
      ParseIntOfBlank(value);
    }
  }

  /** The age check works the same way against category `c`'s limits. */
  lemma AgeOutcomeEntry(value: string, c: Category, limits: Limits)
    ensures Reported(AgeOutcome(value, c, limits)) ==
      CheckedEntry(ValidateAge(ParseInt(value), c, limits), value == "", InvalidAgeMessage(limits, c))
  {
    if value == "" {
      ParseIntOfBlank(value);
    }
  }

  /** The email check leaves `required` for a blank value and `invalidEmail` for any other
      the pattern refuses; an accepted address is never blank. */
  lemma EmailOutcomeEntry(value: string)
    ensures Reported(EmailOutcome(value)) == CheckedEntry(ValidateEmail(value), AllWhitespace(value), InvalidEmail)
  {
    if ValidateEmail(value) {
      ValidEmailIsNotBlank(value);
    }
  }

  /** Checks run in turn on an error dictionary: check `j` reports under `keys[j]`, and when
      `outcomes[j]` holds a message it does `errors[keys[j]] = message`. */
  function RunChecks<K>(errors: map<K, ErrorText>, keys: seq<K>, outcomes: seq<Option<Message>>): map<K, ErrorText>
    requires |keys| == |outcomes|
  {
    RunFirst(errors, keys, outcomes, |outcomes|)
  }

  /** The first `n` checks, run in turn. */
  function RunFirst<K>(errors: map<K, ErrorText>, keys: seq<K>, outcomes: seq<Option<Message>>, n: nat): map<K, ErrorText>
    requires |keys| == |outcomes| && n <= |keys|
  {
    if n == 0 then errors
    else Report(RunFirst(errors, keys, outcomes, n - 1), keys[n - 1], outcomes[n - 1])
  }

  /** One check: a failing outcome sets its message under `key`. */
  function Report<K>(errors: map<K, ErrorText>, key: K, outcome: Option<Message>): map<K, ErrorText> {
    if outcome.Some? then errors[key := Shown(outcome.value)] else errors
  }

  /** No key appears twice. */
  predicate Distinct<K(==)>(keys: seq<K>) {
    forall i, j :: 0 <= i < j < |keys| ==> keys[i] != keys[j]
  }

  /** The entry of `errors` at `k`, if any. */
  function Entry<K>(errors: map<K, ErrorText>, k: K): Option<ErrorText> {
    if k in errors then Some(errors[k]) else None
  }

  /** The entry a check's outcome leaves: its message, or nothing. */
  function Reported(outcome: Option<Message>): Option<ErrorText> {
    if outcome.Some? then Some(Shown(outcome.value)) else None
  }

  /** Running checks adds no key but the checks' own. */
  lemma {:induction false} RunFirstAddsOnlyTheirKeys<K>(errors: map<K, ErrorText>, keys: seq<K>, outcomes: seq<Option<Message>>, n: nat, k: K)
    requires |keys| == |outcomes| && n <= |keys|
    ensures k in RunFirst(errors, keys, outcomes, n) ==> k in errors || k in keys
  {
    if n > 0 {
      RunFirstAddsOnlyTheirKeys(errors, keys, outcomes, n - 1, k);
    }
  }

  /** A key none of the first `n` checks reports under keeps its entry. */
  lemma {:induction false} RunFirstFrame<K>(errors: map<K, ErrorText>, keys: seq<K>, outcomes: seq<Option<Message>>, n: nat, k: K)
    requires |keys| == |outcomes| && n <= |keys|
    requires forall j :: 0 <= j < n ==> keys[j] != k
    ensures Entry(RunFirst(errors, keys, outcomes, n), k) == Entry(errors, k)
  {
    if n > 0 {
      RunFirstFrame(errors, keys, outcomes, n - 1, k);
    }
  }

  /** With distinct keys, the entry under the key of check `j` is the message that check
      reports, or the entry that was there before when the check passes. */
  lemma {:induction false} RunFirstEntry<K>(errors: map<K, ErrorText>, keys: seq<K>, outcomes: seq<Option<Message>>, n: nat, j: nat)
    requires |keys| == |outcomes| && Distinct(keys) && j < n <= |keys|
    ensures Entry(RunFirst(errors, keys, outcomes, n), keys[j]) ==
      if outcomes[j].Some? then Reported(outcomes[j]) else Entry(errors, keys[j])
  {
    if j < n - 1 {
      RunFirstEntry(errors, keys, outcomes, n - 1, j);
    } else {
      RunFirstFrame(errors, keys, outcomes, n - 1, keys[j]);
    }
  }

  /** Every check's key ends up with its reported message, or keeps its old entry. */
  lemma RunChecksEntry<K>(errors: map<K, ErrorText>, keys: seq<K>, outcomes: seq<Option<Message>>, j: nat)
    requires |keys| == |outcomes| && Distinct(keys) && j < |keys|
    ensures Entry(RunChecks(errors, keys, outcomes), keys[j]) ==
      if outcomes[j].Some? then Reported(outcomes[j]) else Entry(errors, keys[j])
  {
    RunFirstEntry(errors, keys, outcomes, |keys|, j);
  }

  /** Running all checks adds no key but the checks' own. */
  lemma RunChecksAddsOnlyTheirKeys<K>(errors: map<K, ErrorText>, keys: seq<K>, outcomes: seq<Option<Message>>, k: K)
    requires |keys| == |outcomes|
    ensures k in RunChecks(errors, keys, outcomes) ==> k in errors || k in keys
  {
    RunFirstAddsOnlyTheirKeys(errors, keys, outcomes, |keys|, k);
  }

  /** Checks only ever write messages: started from entries that all hold messages, every
      entry of the result holds one, and no key but the checks' own is added. */
  lemma {:induction false} RunFirstReportsMessages<K>(errors: map<K, ErrorText>, keys: seq<K>, outcomes: seq<Option<Message>>, n: nat)
    requires |keys| == |outcomes| && n <= |keys|
    requires forall k :: k in errors ==> HasError(errors, k)
    ensures forall k :: k in RunFirst(errors, keys, outcomes, n) ==>
      HasError(RunFirst(errors, keys, outcomes, n), k) && (k in errors || k in keys)
  {
    if n > 0 {
      RunFirstReportsMessages(errors, keys, outcomes, n - 1);
    }
  }

  /** What every change handler does to the error dictionary: when the entry for `key` is
      truthy it becomes the empty string; nothing else changes. */
  function ClearError<K>(errors: map<K, ErrorText>, key: K): (r: map<K, ErrorText>)
    ensures r.Keys == errors.Keys
    ensures key in errors ==> r[key] == Blank
    ensures forall k :: k in errors && k != key ==> r[k] == errors[k]
    ensures !HasError(r, key)
  {
    if HasError(errors, key) then errors[key := Blank] else errors
  }

  /** `value || null`: the empty string is persisted as null. */
  function NullIfEmpty(value: string): (r: Option<string>)
    ensures r == None <==> value == []
    ensures r.Some? ==> r.value == value
  {
    if value == [] then None else Some(value)
  }

  /** Clearing an entry twice is clearing it once. */
  lemma ClearErrorIdempotent<K>(errors: map<K, ErrorText>, key: K)
    ensures ClearError(ClearError(errors, key), key) == ClearError(errors, key)
  {
  }
}
