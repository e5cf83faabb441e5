/** The World Fantastic Short Film Award submission form: its snapshot of field values, the
    full-form validation that gates submission, the record it persists, and the component
    whose change handlers and submit handler update that state. */
module WorldSubmission {
  import opened Wrappers
  import opened JsText
  import opened FormValidation
  import opened FormCommon

  // ---------------------------------------------------------------------------
  // Snapshot
  // ---------------------------------------------------------------------------

  /** The inputs wired to `handleInputChange`, by their `name` attribute. */
  datatype TextField =
    | FilmTitle | FilmTitleTh | Duration | Synopsis | ChiangmaiConnection
    | DirectorName | DirectorAge | DirectorPhone | DirectorEmail | Occupation | TeamMembers

  /** The keys of the form's error dictionary. */
  datatype ErrorKey = Input(field: TextField) | Genres | FileKey(slot: FileSlot) | Agreements

  type Errors = map<ErrorKey, ErrorText>

  /** The snapshot; unlike the Youth form it keeps no nationality, and the team is one
      free-text value. */
  datatype FormData = FormData(
    filmTitle: string,
    filmTitleTh: string,
    genres: seq<string>,
    duration: string,
    synopsis: string,
    chiangmaiConnection: string,
    directorName: string,
    directorAge: string,
    directorPhone: string,
    directorEmail: string,
    occupation: string,
    teamMembers: string,
    filmFile: Option<File>,
    posterFile: Option<File>,
    proofFile: Option<File>,
    agreement1: bool,
    agreement2: bool,
    agreement3: bool,
    agreement4: bool)

  /** The snapshot a fresh form starts from. */
  const InitialFormData: FormData :=
    FormData("", "", [], "", "", "", "", "", "", "", "", "", None, None, None, false, false, false, false)

  /** The value of a text input. */
  function Text(d: FormData, f: TextField): string {
    match f
    case FilmTitle => d.filmTitle
    case FilmTitleTh => d.filmTitleTh
    case Duration => d.duration
    case Synopsis => d.synopsis
    case ChiangmaiConnection => d.chiangmaiConnection
    case DirectorName => d.directorName
    case DirectorAge => d.directorAge
    case DirectorPhone => d.directorPhone
    case DirectorEmail => d.directorEmail
    case Occupation => d.occupation
    case TeamMembers => d.teamMembers
  }

  function FileIn(d: FormData, slot: FileSlot): Option<File> {
    match slot
    case FilmFile => d.filmFile
    case PosterFile => d.posterFile
    case ProofFile => d.proofFile
  }

  function AgreementIn(d: FormData, flag: AgreementFlag): bool {
    match flag
    case Agreement1 => d.agreement1
    case Agreement2 => d.agreement2
    case Agreement3 => d.agreement3
    case Agreement4 => d.agreement4
  }

  /** The four agreement checkboxes are all ticked. */
  predicate AllAgreed(d: FormData) {
    forall flag :: AgreementIn(d, flag)
  }

  /** `a` and `b` hold the same text inputs. */
  predicate SameTexts(a: FormData, b: FormData) {
    forall f :: Text(a, f) == Text(b, f)
  }

  /** `a` and `b` hold the same uploads. */
  predicate SameFiles(a: FormData, b: FormData) {
    forall slot :: FileIn(a, slot) == FileIn(b, slot)
  }

  /** `a` and `b` hold the same checkboxes. */
  predicate SameAgreements(a: FormData, b: FormData) {
    forall flag :: AgreementIn(a, flag) == AgreementIn(b, flag)
  }

  /** `{ ...prev, [name]: value }` for a text input. */
  function WithText(d: FormData, f: TextField, value: string): (r: FormData)
    ensures Text(r, f) == value
    ensures forall g :: g != f ==> Text(r, g) == Text(d, g)
    ensures SameFiles(r, d) && SameAgreements(r, d) && r.genres == d.genres
  {
    match f
    case FilmTitle => d.(filmTitle := value)
    case FilmTitleTh => d.(filmTitleTh := value)
    case Duration => d.(duration := value)
    case Synopsis => d.(synopsis := value)
    case ChiangmaiConnection => d.(chiangmaiConnection := value)
    case DirectorName => d.(directorName := value)
    case DirectorAge => d.(directorAge := value)
    case DirectorPhone => d.(directorPhone := value)
    case DirectorEmail => d.(directorEmail := value)
    case Occupation => d.(occupation := value)
    case TeamMembers => d.(teamMembers := value)
  }

  /** `{ ...prev, [name]: file }` for an upload slot. */
  function WithFile(d: FormData, slot: FileSlot, file: Option<File>): (r: FormData)
    ensures FileIn(r, slot) == file
    ensures forall s :: s != slot ==> FileIn(r, s) == FileIn(d, s)
    ensures SameTexts(r, d) && SameAgreements(r, d) && r.genres == d.genres
  {
    match slot
    case FilmFile => d.(filmFile := file)
    case PosterFile => d.(posterFile := file)
    case ProofFile => d.(proofFile := file)
  }

  /** `{ ...prev, [name]: checked }` for an agreement checkbox. */
  function WithAgreement(d: FormData, flag: AgreementFlag, checked: bool): (r: FormData)
    ensures AgreementIn(r, flag) == checked
    ensures forall g :: g != flag ==> AgreementIn(r, g) == AgreementIn(d, g)
    ensures SameTexts(r, d) && SameFiles(r, d) && r.genres == d.genres
  {
    match flag
    case Agreement1 => d.(agreement1 := checked)
    case Agreement2 => d.(agreement2 := checked)
    case Agreement3 => d.(agreement3 := checked)
    case Agreement4 => d.(agreement4 := checked)
  }

  // ---------------------------------------------------------------------------
  // validateMainForm
  // ---------------------------------------------------------------------------

  /** The keys `validateMainForm` checks, in the source's order; the occupation and the
      team are optional and have no check. */
  const MainFormKeys: seq<ErrorKey> := [
    Input(FilmTitle), Input(FilmTitleTh), Genres, Input(Duration), Input(Synopsis),
    Input(ChiangmaiConnection), Input(DirectorName), Input(DirectorAge), Input(DirectorPhone),
    Input(DirectorEmail), FileKey(FilmFile), FileKey(PosterFile), FileKey(ProofFile), Agreements]

  /** What the check under key `k` of `validateMainForm` reports; the director's age is
      judged against the WORLD limits, and the occupation and the team have no check. */
  function Outcome(d: FormData, isThai: bool, limits: Limits, k: ErrorKey): Option<Message> {
    match k
    case Input(FilmTitle) => RequiredIf(AllWhitespace(d.filmTitle))
    case Input(FilmTitleTh) => RequiredIf(isThai && AllWhitespace(d.filmTitleTh))
    case Genres => RequiredIf(|d.genres| == 0)
    case Input(Duration) => DurationOutcome(d.duration, limits)
    case Input(Synopsis) => RequiredIf(AllWhitespace(d.synopsis))
    case Input(ChiangmaiConnection) => RequiredIf(AllWhitespace(d.chiangmaiConnection))
    case Input(DirectorName) => RequiredIf(AllWhitespace(d.directorName))
    case Input(DirectorAge) => AgeOutcome(d.directorAge, WORLD, limits)
    case Input(DirectorPhone) => RequiredIf(AllWhitespace(d.directorPhone))
    case Input(DirectorEmail) => EmailOutcome(d.directorEmail)
    case Input(Occupation) => None
    case Input(TeamMembers) => None
    case FileKey(slot) => RequiredIf(FileIn(d, slot).None?)
    case Agreements => if AllAgreed(d) then None else Some(AllAgreementsRequired)
  }

  /** The checks' outcomes, in the order of `MainFormKeys`. */
  function MainFormOutcomes(d: FormData, isThai: bool, limits: Limits): seq<Option<Message>> {
    seq(|MainFormKeys|, i requires 0 <= i < |MainFormKeys| => Outcome(d, isThai, limits, MainFormKeys[i]))
  }

  /** `validateMainForm`: the error dictionary the checks build from an empty one. */
  function ValidateMainForm(d: FormData, isThai: bool, limits: Limits): Errors {
    RunChecks(map[], MainFormKeys, MainFormOutcomes(d, isThai, limits))
  }

  /** Position of each checked key among the checks; the unchecked inputs come after. */
  function KeyIndex(k: ErrorKey): nat {
    match k
    case Input(FilmTitle) => 0
    case Input(FilmTitleTh) => 1
    case Genres => 2
    case Input(Duration) => 3
    case Input(Synopsis) => 4
    case Input(ChiangmaiConnection) => 5
    case Input(DirectorName) => 6
    case Input(DirectorAge) => 7
    case Input(DirectorPhone) => 8
    case Input(DirectorEmail) => 9
    case FileKey(FilmFile) => 10
    case FileKey(PosterFile) => 11
    case FileKey(ProofFile) => 12
    case Agreements => 13
    case Input(Occupation) => 14
    case Input(TeamMembers) => 15
  }

  /** Each key is checked at most once, and the checked keys are exactly those placed before
      the end of `MainFormKeys`. */
  lemma MainFormKeysIndexed()
    ensures Distinct(MainFormKeys)
    ensures forall k :: KeyIndex(k) < |MainFormKeys| ==> MainFormKeys[KeyIndex(k)] == k
    ensures forall k :: KeyIndex(k) >= |MainFormKeys| ==> k !in MainFormKeys
  {
    assert forall i :: 0 <= i < |MainFormKeys| ==> KeyIndex(MainFormKeys[i]) == i;
  }

  /** The entry of `validateMainForm` under each key is what that key's check reports. */
  lemma MainFormEntry(d: FormData, isThai: bool, limits: Limits, k: ErrorKey)
    ensures Entry(ValidateMainForm(d, isThai, limits), k) == Reported(Outcome(d, isThai, limits, k))
  {
    MainFormKeysIndexed();
    if KeyIndex(k) < |MainFormKeys| {
      RunChecksEntry(map[], MainFormKeys, MainFormOutcomes(d, isThai, limits), KeyIndex(k));
    } else {
      RunChecksAddsOnlyTheirKeys(map[], MainFormKeys, MainFormOutcomes(d, isThai, limits), k);
    }
  }

  /** Every entry `validateMainForm` leaves is a message, never the empty string, and only checked keys have one. */
  lemma ValidateMainFormReportsMessages(d: FormData, isThai: bool, limits: Limits)
    ensures forall k :: k in ValidateMainForm(d, isThai, limits) ==> HasError(ValidateMainForm(d, isThai, limits), k)
    ensures forall k :: k in ValidateMainForm(d, isThai, limits) ==> k in MainFormKeys
  {
    RunFirstReportsMessages(map[], MainFormKeys, MainFormOutcomes(d, isThai, limits), |MainFormKeys|);
  }

  /** The film information entries of `validateMainForm`: the Thai title is required in Thai
      mode only, and the duration gets `required` when empty, `invalidDuration` when it does
      not parse to a number within the limits, and nothing otherwise. */
  lemma FilmEntries(d: FormData, isThai: bool, limits: Limits)
    ensures var errors := ValidateMainForm(d, isThai, limits);
      && Entry(errors, Input(FilmTitle)) == RequiredUnless(!AllWhitespace(d.filmTitle))
      && Entry(errors, Input(FilmTitleTh)) == RequiredUnless(!(isThai && AllWhitespace(d.filmTitleTh)))
      && Entry(errors, Genres) == RequiredUnless(|d.genres| > 0)
      && Entry(errors, Input(Duration)) ==
           CheckedEntry(ValidateDuration(ParseInt(d.duration), limits), d.duration == "", InvalidDurationMessage(limits))
      && Entry(errors, Input(Synopsis)) == RequiredUnless(!AllWhitespace(d.synopsis))
      && Entry(errors, Input(ChiangmaiConnection)) == RequiredUnless(!AllWhitespace(d.chiangmaiConnection))
  {
    DurationOutcomeEntry(d.duration, limits);
    MainFormEntry(d, isThai, limits, Input(FilmTitle));
    MainFormEntry(d, isThai, limits, Input(FilmTitleTh));
    MainFormEntry(d, isThai, limits, Genres);
    MainFormEntry(d, isThai, limits, Input(Duration));
    MainFormEntry(d, isThai, limits, Input(Synopsis));
    MainFormEntry(d, isThai, limits, Input(ChiangmaiConnection));
  }

  /** The director's name and phone entries of `validateMainForm`. */
  lemma DirectorEntries(d: FormData, isThai: bool, limits: Limits)
    ensures var errors := ValidateMainForm(d, isThai, limits);
      && Entry(errors, Input(DirectorName)) == RequiredUnless(!AllWhitespace(d.directorName))
      && Entry(errors, Input(DirectorPhone)) == RequiredUnless(!AllWhitespace(d.directorPhone))
  {
    MainFormEntry(d, isThai, limits, Input(DirectorName));
    MainFormEntry(d, isThai, limits, Input(DirectorPhone));
  }

  /** The director's age entry: judged against the WORLD limits like the duration. */
  lemma AgeEntry(d: FormData, isThai: bool, limits: Limits)
    ensures Entry(ValidateMainForm(d, isThai, limits), Input(DirectorAge)) ==
      CheckedEntry(ValidateAge(ParseInt(d.directorAge), WORLD, limits), d.directorAge == "", InvalidAgeMessage(limits, WORLD))
  {
    AgeOutcomeEntry(d.directorAge, WORLD, limits);
    MainFormEntry(d, isThai, limits, Input(DirectorAge));
  }

  /** The director's email entry: a blank address is `required`, any other the pattern
      refuses is `invalidEmail`. */
  lemma EmailEntry(d: FormData, isThai: bool, limits: Limits)
    ensures Entry(ValidateMainForm(d, isThai, limits), Input(DirectorEmail)) ==
      CheckedEntry(ValidateEmail(d.directorEmail), AllWhitespace(d.directorEmail), InvalidEmail)
  {
    EmailOutcomeEntry(d.directorEmail);
    MainFormEntry(d, isThai, limits, Input(DirectorEmail));
  }

  /** The remaining entries of `validateMainForm`: each missing upload under its own key,
      and one `agreements` entry for any unticked box. */
  lemma OtherEntries(d: FormData, isThai: bool, limits: Limits)
    ensures var errors := ValidateMainForm(d, isThai, limits);
      && Entry(errors, FileKey(FilmFile)) == RequiredUnless(d.filmFile.Some?)
      && Entry(errors, FileKey(PosterFile)) == RequiredUnless(d.posterFile.Some?)
      && Entry(errors, FileKey(ProofFile)) == RequiredUnless(d.proofFile.Some?)
      && Entry(errors, Agreements) == (if AllAgreed(d) then None else Some(Shown(AllAgreementsRequired)))
  {
    MainFormEntry(d, isThai, limits, FileKey(FilmFile));
    MainFormEntry(d, isThai, limits, FileKey(PosterFile));
    MainFormEntry(d, isThai, limits, FileKey(ProofFile));
    MainFormEntry(d, isThai, limits, Agreements);
  }

  /** The occupation and the team are optional: whatever they hold, they never have an
      entry. */
  lemma OptionalFieldsNeverReported(d: FormData, isThai: bool, limits: Limits)
    ensures var errors := ValidateMainForm(d, isThai, limits);
      Input(Occupation) !in errors && Input(TeamMembers) !in errors
  {
    MainFormEntry(d, isThai, limits, Input(Occupation));
    MainFormEntry(d, isThai, limits, Input(TeamMembers));
  }

  /** A snapshot the form lets through: every checked field acceptable on its own terms. */
  predicate Submittable(d: FormData, isThai: bool, limits: Limits) {
    && !AllWhitespace(d.filmTitle)
    && (isThai ==> !AllWhitespace(d.filmTitleTh))
    && |d.genres| > 0
    && ValidateDuration(ParseInt(d.duration), limits)
    && !AllWhitespace(d.synopsis)
    && !AllWhitespace(d.chiangmaiConnection)
    && !AllWhitespace(d.directorName)
    && ValidateAge(ParseInt(d.directorAge), WORLD, limits)
    && !AllWhitespace(d.directorPhone)
    && ValidateEmail(d.directorEmail)
    && d.filmFile.Some? && d.posterFile.Some? && d.proofFile.Some?
    && AllAgreed(d)
  }

  /** The submit gate: the error map is empty exactly when every checked field is
      acceptable. */
  lemma ValidateMainFormEmptyIff(d: FormData, isThai: bool, limits: Limits)
    ensures ValidateMainForm(d, isThai, limits) == map[] <==> Submittable(d, isThai, limits)
  {
    var errors := ValidateMainForm(d, isThai, limits);
    FilmEntries(d, isThai, limits);
    DirectorEntries(d, isThai, limits);
    AgeEntry(d, isThai, limits);
    EmailEntry(d, isThai, limits);
    OtherEntries(d, isThai, limits);
    assert AllAgreed(d) <==> d.agreement1 && d.agreement2 && d.agreement3 && d.agreement4 by {
      assert AgreementIn(d, Agreement1) && AgreementIn(d, Agreement2) ==> d.agreement1 && d.agreement2;
      assert AgreementIn(d, Agreement3) && AgreementIn(d, Agreement4) ==> d.agreement3 && d.agreement4;
    }
    forall k ensures Submittable(d, isThai, limits) ==> k !in errors {
      RunChecksAddsOnlyTheirKeys(map[], MainFormKeys, MainFormOutcomes(d, isThai, limits), k);
    }
  }

  /** The Thai title is checked in Thai mode only, and there it is required. */
  lemma ThaiTitleRequiredOnlyInThaiMode(d: FormData, isThai: bool, limits: Limits)
    ensures Input(FilmTitleTh) in ValidateMainForm(d, isThai, limits) <==> isThai && AllWhitespace(d.filmTitleTh)
  {
    FilmEntries(d, isThai, limits);
  }

  /** In international mode the Thai title plays no part in validation, so clearing it when
      switching changes no error. */
  lemma ClearingThaiTitleKeepsInternationalErrors(d: FormData, limits: Limits)
    ensures ValidateMainForm(d.(filmTitleTh := ""), false, limits) == ValidateMainForm(d, false, limits)
  {
    var c := d.(filmTitleTh := "");
    assert AllAgreed(c) == AllAgreed(d) by {
      assert forall flag :: AgreementIn(c, flag) == AgreementIn(d, flag);
    }
    forall k ensures Outcome(c, false, limits, k) == Outcome(d, false, limits, k) {
    }
    assert MainFormOutcomes(c, false, limits) == MainFormOutcomes(d, false, limits);
  }

  /** Switching back to Thai mode after the Thai title was cleared reports it as missing. */
  lemma ClearedThaiTitleRequiredInThaiMode(d: FormData, limits: Limits)
    ensures Entry(ValidateMainForm(d.(filmTitleTh := ""), true, limits), Input(FilmTitleTh)) == Some(Shown(Required))
  {
    var c := d.(filmTitleTh := "");
    assert AllWhitespace(c.filmTitleTh);
    FilmEntries(c, true, limits);
  }

  // ---------------------------------------------------------------------------
  // The persisted record
  // ---------------------------------------------------------------------------

  /** The document handed to the `submissions` collection (the server timestamp aside). */
  datatype Record = Record(
    category: string,
    filmTitle: string,
    filmTitleTh: Option<string>,
    genres: seq<string>,
    duration: Option<int>,
    synopsis: string,
    chiangmaiConnection: string,
    directorName: string,
    directorAge: Option<int>,
    directorPhone: string,
    directorEmail: string,
    occupation: Option<string>,
    teamMembers: Option<string>,
    agreements: AgreementsRecord,
    status: string)

  const WorldCategory: string := "world"

  /** The record literal of `handleSubmit`: each text input lands in its own field, the two
      numbers as `parseInt` reads them, the Thai title only in Thai mode, the optional values
      as null when empty, and the four checkboxes under their agreement names. */
  function BuildRecord(d: FormData, isThai: bool): (r: Record)
    ensures r.category == WorldCategory && r.status == Submitted
    ensures && r.filmTitle == d.filmTitle && r.synopsis == d.synopsis
            && r.chiangmaiConnection == d.chiangmaiConnection && r.directorName == d.directorName
            && r.directorPhone == d.directorPhone && r.directorEmail == d.directorEmail
    ensures r.duration == ParseInt(d.duration) && r.directorAge == ParseInt(d.directorAge)
    ensures (r.filmTitleTh.Some? <==> isThai) && (isThai ==> r.filmTitleTh.value == d.filmTitleTh)
    ensures r.occupation == (if d.occupation == "" then None else Some(d.occupation))
    ensures r.teamMembers == (if d.teamMembers == "" then None else Some(d.teamMembers))
    ensures r.genres == d.genres
    ensures r.agreements == AgreementsRecord(d.agreement1, d.agreement2, d.agreement3, d.agreement4)
  {
    Record(
      WorldCategory,
      d.filmTitle,
      if isThai then Some(d.filmTitleTh) else None,
      d.genres,
      ParseInt(d.duration),
      d.synopsis,
      d.chiangmaiConnection,
      d.directorName,
      ParseInt(d.directorAge),
      d.directorPhone,
      d.directorEmail,
      NullIfEmpty(d.occupation),
      NullIfEmpty(d.teamMembers),
      AgreementsRecord(d.agreement1, d.agreement2, d.agreement3, d.agreement4),
      Submitted)
  }

  /** Every record the gate lets through is well formed: numbers in range, a valid address,
      all four agreements given, the Thai title present exactly in Thai mode, and the
      optional values null exactly when left empty. */
  lemma AcceptedRecordIsWellFormed(d: FormData, isThai: bool, limits: Limits)
    requires ValidateMainForm(d, isThai, limits) == map[]
    ensures var r := BuildRecord(d, isThai);
      && ValidateDuration(r.duration, limits)
      && ValidateAge(r.directorAge, WORLD, limits)
      && ValidateEmail(r.directorEmail)
      && |r.genres| > 0
      && r.agreements == AgreementsRecord(true, true, true, true)
      && (r.filmTitleTh.Some? <==> isThai)
      && (r.filmTitleTh.Some? ==> !AllWhitespace(r.filmTitleTh.value))
      && (r.occupation.None? <==> d.occupation == "")
      && (r.teamMembers.None? <==> d.teamMembers == "")
      && r.category == WorldCategory && r.status == Submitted
  {
    ValidateMainFormEmptyIff(d, isThai, limits);
    assert AgreementIn(d, Agreement1) && AgreementIn(d, Agreement2);
    assert AgreementIn(d, Agreement3) && AgreementIn(d, Agreement4);
  }

  // ---------------------------------------------------------------------------
  // The component
  // ---------------------------------------------------------------------------

  /** The form's state cells; `limits` are the age and duration bounds it validates with. */
  class WorldSubmissionForm {
    const limits: Limits
    var formData: FormData
    var formErrors: Errors
    var isThaiNationality: bool
    var isSubmitting: bool
    var submitSuccess: bool

    constructor (limits: Limits)
      ensures this.limits == limits
      ensures formData == InitialFormData && formErrors == map[]
      ensures isThaiNationality && !isSubmitting && !submitSuccess
    {
      this.limits := limits;
      formData := InitialFormData;
      formErrors := map[];
      isThaiNationality := true;
      isSubmitting := false;
      submitSuccess := false;
    }

    /** `handleInputChange` for a text, number or textarea input. */
    method HandleInputChange(name: TextField, value: string)
      modifies this`formData, this`formErrors
      ensures formData == WithText(old(formData), name, value)
      ensures formErrors == ClearError(old(formErrors), Input(name))
    {
      formData := WithText(formData, name, value);
      formErrors := ClearError(formErrors, Input(name));
    }

    method HandleGenreChange(genres: seq<string>)
      modifies this`formData, this`formErrors
      ensures formData == old(formData).(genres := genres)
      ensures formErrors == ClearError(old(formErrors), Genres)
    {
      formData := formData.(genres := genres);
      formErrors := ClearError(formErrors, Genres);
    }

    /** Any checkbox blanks the one `agreements` entry. */
    method HandleAgreementChange(flag: AgreementFlag, checked: bool)
      modifies this`formData, this`formErrors
      ensures formData == WithAgreement(old(formData), flag, checked)
      ensures formErrors == ClearError(old(formErrors), Agreements)
    {
      formData := WithAgreement(formData, flag, checked);
      formErrors := ClearError(formErrors, Agreements);
    }

    method HandleFileChange(slot: FileSlot, file: Option<File>)
      modifies this`formData, this`formErrors
      ensures formData == WithFile(old(formData), slot, file)
      ensures formErrors == ClearError(old(formErrors), FileKey(slot))
    {
      formData := WithFile(formData, slot, file);
      formErrors := ClearError(formErrors, FileKey(slot));
    }

    /** The selected nationality is not stored by this form: the handler changes nothing. */
    method HandleNationalityChange(nationality: string)
      ensures formData == old(formData) && formErrors == old(formErrors)
      ensures isThaiNationality == old(isThaiNationality)
    {
    }

    /** Switching to international wipes the Thai title; switching to Thai keeps the
        snapshot as it is. Errors are left alone either way. */
    method HandleNationalityTypeChange(isThai: bool)
      modifies this`isThaiNationality, this`formData
      ensures isThaiNationality == isThai
      ensures formData == if isThai then old(formData) else old(formData).(filmTitleTh := "")
    {
      isThaiNationality := isThai;
      if !isThai {
        formData := formData.(filmTitleTh := "");
      }
    }

    /** `handleSubmit`, with the store's answer as `writeSucceeds`. A snapshot with errors
        has them stored and nothing is written; otherwise the record is handed to the store
        (`document`), the form is no longer submitting afterwards, and success is recorded
        only when the write went through. */
    method HandleSubmit(writeSucceeds: bool) returns (document: Option<Record>)
      modifies this`formErrors, this`isSubmitting, this`submitSuccess
      ensures var errors := ValidateMainForm(old(formData), old(isThaiNationality), limits);
        if errors != map[] then
          && document == None
          && formErrors == errors
          && isSubmitting == old(isSubmitting) && submitSuccess == old(submitSuccess)
        else
          && document == Some(BuildRecord(old(formData), old(isThaiNationality)))
          && formErrors == old(formErrors)
          && !isSubmitting
          && submitSuccess == (old(submitSuccess) || writeSucceeds)
      ensures document.Some? <==> Submittable(old(formData), old(isThaiNationality), limits)
    {
      var d, isThai := formData, isThaiNationality;
      var errors := ValidateMainForm(d, isThai, limits);
      ValidateMainFormEmptyIff(d, isThai, limits);
      if errors != map[] {
        formErrors := errors;
        return None;
      }
      isSubmitting := true;
      document := Some(BuildRecord(d, isThai));
      if writeSucceeds {
        submitSuccess := true;
      }
      isSubmitting := false;
    }
  }
}
