/** The Youth Fantastic Short Film Award submission form: its snapshot of field values, the
    full-form validation that gates submission, the record it persists, and the component
    whose change handlers and submit handler update that state. */
module YouthSubmission {
  import opened Wrappers
  import opened JsText
  import opened FormValidation
  import opened FormCommon

  // ---------------------------------------------------------------------------
  // Snapshot
  // ---------------------------------------------------------------------------

  /** A crew member as the crew editor hands it over: only the Thai full name is read or
      written by this form; every other field travels through unchanged. */
  datatype CrewMember = CrewMember(fullNameTh: Option<string>, otherFields: map<string, string>)

  /** The inputs wired to `handleInputChange`, by their `name` attribute. */
  datatype TextField =
    | FilmTitle | FilmTitleTh | Duration | Synopsis | ChiangmaiConnection
    | SubmitterName | SubmitterNameTh | SubmitterAge | SubmitterPhone | SubmitterEmail
    | SubmitterRole | SubmitterCustomRole | SchoolName | StudentId

  /** The keys of the form's error dictionary. */
  datatype ErrorKey = Input(field: TextField) | Genres | CrewMembers | FileKey(slot: FileSlot) | Agreements

  type Errors = map<ErrorKey, ErrorText>

  datatype FormData = FormData(
    nationality: string,
    filmTitle: string,
    filmTitleTh: string,
    genres: seq<string>,
    duration: string,
    synopsis: string,
    chiangmaiConnection: string,
    submitterName: string,
    submitterNameTh: string,
    submitterAge: string,
    submitterPhone: string,
    submitterEmail: string,
    submitterRole: string,
    submitterCustomRole: string,
    schoolName: string,
    studentId: string,
    crewMembers: seq<CrewMember>,
    filmFile: Option<File>,
    posterFile: Option<File>,
    proofFile: Option<File>,
    agreement1: bool,
    agreement2: bool,
    agreement3: bool,
    agreement4: bool)

  /** The snapshot a fresh form starts from. */
  const InitialFormData: FormData :=
    FormData("Thailand", "", "", [], "", "", "", "", "", "", "", "", "", "", "", "", [],
             None, None, None, false, false, false, false)

  /** The value of a text input. */
  function Text(d: FormData, f: TextField): string {
    match f
    case FilmTitle => d.filmTitle
    case FilmTitleTh => d.filmTitleTh
    case Duration => d.duration
    case Synopsis => d.synopsis
    case ChiangmaiConnection => d.chiangmaiConnection
    case SubmitterName => d.submitterName
    case SubmitterNameTh => d.submitterNameTh
    case SubmitterAge => d.submitterAge
    case SubmitterPhone => d.submitterPhone
    case SubmitterEmail => d.submitterEmail
    case SubmitterRole => d.submitterRole
    case SubmitterCustomRole => d.submitterCustomRole
    case SchoolName => d.schoolName
    case StudentId => d.studentId
  }

  function FileIn(d: FormData, slot: FileSlot): Option<File> {
    match slot
    case FilmFile => d.filmFile
    case PosterFile => d.posterFile
    case ProofFile => d.proofFile
  }

  function AgreementIn(d: FormData, flag: AgreementFlag): bool {
    match flag
    case Agreement1 => d.agreement1
    case Agreement2 => d.agreement2
    case Agreement3 => d.agreement3
    case Agreement4 => d.agreement4
  }

  /** The four agreement checkboxes are all ticked. */
  predicate AllAgreed(d: FormData) {
    forall flag :: AgreementIn(d, flag)
  }

  /** `a` and `b` hold the same text inputs. */
  predicate SameTexts(a: FormData, b: FormData) {
    forall f :: Text(a, f) == Text(b, f)
  }

  /** `a` and `b` hold the same uploads. */
  predicate SameFiles(a: FormData, b: FormData) {
    forall slot :: FileIn(a, slot) == FileIn(b, slot)
  }

  /** `a` and `b` hold the same checkboxes. */
  predicate SameAgreements(a: FormData, b: FormData) {
    forall flag :: AgreementIn(a, flag) == AgreementIn(b, flag)
  }

  /** `{ ...prev, [name]: value }` for a text input. */
  function WithText(d: FormData, f: TextField, value: string): (r: FormData)
    ensures Text(r, f) == value
    ensures forall g :: g != f ==> Text(r, g) == Text(d, g)
    ensures SameFiles(r, d) && SameAgreements(r, d)
    ensures r.nationality == d.nationality && r.genres == d.genres && r.crewMembers == d.crewMembers
  {
    match f
    case FilmTitle => d.(filmTitle := value)
    case FilmTitleTh => d.(filmTitleTh := value)
    case Duration => d.(duration := value)
    case Synopsis => d.(synopsis := value)
    case ChiangmaiConnection => d.(chiangmaiConnection := value)
    case SubmitterName => d.(submitterName := value)
    case SubmitterNameTh => d.(submitterNameTh := value)
    case SubmitterAge => d.(submitterAge := value)
    case SubmitterPhone => d.(submitterPhone := value)
    case SubmitterEmail => d.(submitterEmail := value)
    case SubmitterRole => d.(submitterRole := value)
    case SubmitterCustomRole => d.(submitterCustomRole := value)
    case SchoolName => d.(schoolName := value)
    case StudentId => d.(studentId := value)
  }

  /** `{ ...prev, [fieldName]: file }` for an upload slot. */
  function WithFile(d: FormData, slot: FileSlot, file: Option<File>): (r: FormData)
    ensures FileIn(r, slot) == file
    ensures forall s :: s != slot ==> FileIn(r, s) == FileIn(d, s)
    ensures SameTexts(r, d) && SameAgreements(r, d)
    ensures r.nationality == d.nationality && r.genres == d.genres && r.crewMembers == d.crewMembers
  {
    match slot
    case FilmFile => d.(filmFile := file)
    case PosterFile => d.(posterFile := file)
    case ProofFile => d.(proofFile := file)
  }

  /** `{ ...prev, [name]: checked }` for an agreement checkbox. */
  function WithAgreement(d: FormData, flag: AgreementFlag, checked: bool): (r: FormData)
    ensures AgreementIn(r, flag) == checked
    ensures forall g :: g != flag ==> AgreementIn(r, g) == AgreementIn(d, g)
    ensures SameTexts(r, d) && SameFiles(r, d)
    ensures r.nationality == d.nationality && r.genres == d.genres && r.crewMembers == d.crewMembers
  {
    match flag
    case Agreement1 => d.(agreement1 := checked)
    case Agreement2 => d.(agreement2 := checked)
    case Agreement3 => d.(agreement3 := checked)
    case Agreement4 => d.(agreement4 := checked)
  }

  /** What switching to international does to the snapshot: both Thai-only inputs become
      empty and every crew member loses its Thai full name, in place. */
  function ClearThaiFields(d: FormData): (r: FormData)
    ensures r == d.(filmTitleTh := "", submitterNameTh := "", crewMembers := r.crewMembers)
    ensures |r.crewMembers| == |d.crewMembers|
    ensures forall i :: 0 <= i < |r.crewMembers| ==>
      r.crewMembers[i].fullNameTh == None && r.crewMembers[i].otherFields == d.crewMembers[i].otherFields
  {
    var crew := seq(|d.crewMembers|, i requires 0 <= i < |d.crewMembers| => d.crewMembers[i].(fullNameTh := None));
    d.(filmTitleTh := "", submitterNameTh := "", crewMembers := crew)
  }

  // ---------------------------------------------------------------------------
  // validateMainForm
  // ---------------------------------------------------------------------------

  /** The role whose choice makes the custom role required. */
  const OtherRole: string := "Other"

  /** The keys `validateMainForm` checks, in the source's order. */
  const MainFormKeys: seq<ErrorKey> := [
    Input(FilmTitle), Input(FilmTitleTh), Genres, Input(Duration), Input(Synopsis),
    Input(ChiangmaiConnection), Input(SubmitterName), Input(SubmitterNameTh), Input(SubmitterAge),
    Input(SubmitterPhone), Input(SubmitterEmail), Input(SubmitterRole), Input(SubmitterCustomRole),
    Input(SchoolName), Input(StudentId), CrewMembers, FileKey(FilmFile), FileKey(PosterFile),
    FileKey(ProofFile), Agreements]

  /** What the check under key `k` of `validateMainForm` reports. Duration and age report
      `required` when empty and otherwise the range message when the parsed number fails its
      validator; the email reports `required` when blank and otherwise `invalidEmail` when
      the untrimmed value fails the pattern. */
  function Outcome(d: FormData, isThai: bool, limits: Limits, k: ErrorKey): Option<Message> {
    match k
    case Input(FilmTitle) => RequiredIf(AllWhitespace(d.filmTitle))
    case Input(FilmTitleTh) => RequiredIf(isThai && AllWhitespace(d.filmTitleTh))
    case Genres => RequiredIf(|d.genres| == 0)
    case Input(Duration) => DurationOutcome(d.duration, limits)
    case Input(Synopsis) => RequiredIf(AllWhitespace(d.synopsis))
    case Input(ChiangmaiConnection) => RequiredIf(AllWhitespace(d.chiangmaiConnection))
    case Input(SubmitterName) => RequiredIf(AllWhitespace(d.submitterName))
    case Input(SubmitterNameTh) => RequiredIf(isThai && AllWhitespace(d.submitterNameTh))
    case Input(SubmitterAge) => AgeOutcome(d.submitterAge, YOUTH, limits)
    case Input(SubmitterPhone) => RequiredIf(AllWhitespace(d.submitterPhone))
    case Input(SubmitterEmail) => EmailOutcome(d.submitterEmail)
    case Input(SubmitterRole) => RequiredIf(d.submitterRole == "")
    case Input(SubmitterCustomRole) => RequiredIf(d.submitterRole == OtherRole && AllWhitespace(d.submitterCustomRole))
    case Input(SchoolName) => RequiredIf(AllWhitespace(d.schoolName))
    case Input(StudentId) => RequiredIf(AllWhitespace(d.studentId))
    case CrewMembers => if |d.crewMembers| == 0 then Some(MinCrewMembers) else None
    case FileKey(slot) => RequiredIf(FileIn(d, slot).None?)
    case Agreements => if AllAgreed(d) then None else Some(AllAgreementsRequired)
  }

  /** The checks' outcomes, in the order of `MainFormKeys`. */
  function MainFormOutcomes(d: FormData, isThai: bool, limits: Limits): seq<Option<Message>> {
    seq(|MainFormKeys|, i requires 0 <= i < |MainFormKeys| => Outcome(d, isThai, limits, MainFormKeys[i]))
  }

  /** `validateMainForm`: the error dictionary the checks build from an empty one. */
  function ValidateMainForm(d: FormData, isThai: bool, limits: Limits): Errors {
    RunChecks(map[], MainFormKeys, MainFormOutcomes(d, isThai, limits))
  }

  /** Position of each key among the checks. */
  function KeyIndex(k: ErrorKey): nat {
    match k
    case Input(FilmTitle) => 0
    case Input(FilmTitleTh) => 1
    case Genres => 2
    case Input(Duration) => 3
    case Input(Synopsis) => 4
    case Input(ChiangmaiConnection) => 5
    case Input(SubmitterName) => 6
    case Input(SubmitterNameTh) => 7
    case Input(SubmitterAge) => 8
    case Input(SubmitterPhone) => 9
    case Input(SubmitterEmail) => 10
    case Input(SubmitterRole) => 11
    case Input(SubmitterCustomRole) => 12
    case Input(SchoolName) => 13
    case Input(StudentId) => 14
    case CrewMembers => 15
    case FileKey(FilmFile) => 16
    case FileKey(PosterFile) => 17
    case FileKey(ProofFile) => 18
    case Agreements => 19
  }

  /** Every key is checked, each exactly once. */
  lemma MainFormKeysIndexed()
    ensures Distinct(MainFormKeys)
    ensures forall k :: KeyIndex(k) < |MainFormKeys| && MainFormKeys[KeyIndex(k)] == k
  {
    assert forall i :: 0 <= i < |MainFormKeys| ==> KeyIndex(MainFormKeys[i]) == i;
  }

  /** The entry of `validateMainForm` under each key is what that key's check reports. */
  lemma MainFormEntry(d: FormData, isThai: bool, limits: Limits, k: ErrorKey)
    ensures Entry(ValidateMainForm(d, isThai, limits), k) == Reported(Outcome(d, isThai, limits, k))
  {
    MainFormKeysIndexed();
    RunChecksEntry(map[], MainFormKeys, MainFormOutcomes(d, isThai, limits), KeyIndex(k));
  }

  /** Every entry `validateMainForm` leaves is a message, never the empty string. */
  lemma ValidateMainFormReportsMessages(d: FormData, isThai: bool, limits: Limits)
    ensures forall k :: k in ValidateMainForm(d, isThai, limits) ==> HasError(ValidateMainForm(d, isThai, limits), k)
  {
    RunFirstReportsMessages(map[], MainFormKeys, MainFormOutcomes(d, isThai, limits), |MainFormKeys|);
  }

  /** The film information entries of `validateMainForm`: the Thai title is required in Thai
      mode only, and the duration gets `required` when empty, `invalidDuration` when it does
      not parse to a number within the limits, and nothing otherwise. */
  lemma FilmEntries(d: FormData, isThai: bool, limits: Limits)
    ensures var errors := ValidateMainForm(d, isThai, limits);
      && Entry(errors, Input(FilmTitle)) == RequiredUnless(!AllWhitespace(d.filmTitle))
      && Entry(errors, Input(FilmTitleTh)) == RequiredUnless(!(isThai && AllWhitespace(d.filmTitleTh)))
      && Entry(errors, Genres) == RequiredUnless(|d.genres| > 0)
      && Entry(errors, Input(Duration)) ==
           CheckedEntry(ValidateDuration(ParseInt(d.duration), limits), d.duration == "", InvalidDurationMessage(limits))
      && Entry(errors, Input(Synopsis)) == RequiredUnless(!AllWhitespace(d.synopsis))
      && Entry(errors, Input(ChiangmaiConnection)) == RequiredUnless(!AllWhitespace(d.chiangmaiConnection))
  {
    DurationOutcomeEntry(d.duration, limits);
    MainFormEntry(d, isThai, limits, Input(FilmTitle));
    MainFormEntry(d, isThai, limits, Input(FilmTitleTh));
    MainFormEntry(d, isThai, limits, Genres);
    MainFormEntry(d, isThai, limits, Input(Duration));
    MainFormEntry(d, isThai, limits, Input(Synopsis));
    MainFormEntry(d, isThai, limits, Input(ChiangmaiConnection));
  }

  /** The submitter's name and phone entries of `validateMainForm`: the Thai name is
      required in Thai mode only. */
  lemma SubmitterEntries(d: FormData, isThai: bool, limits: Limits)
    ensures var errors := ValidateMainForm(d, isThai, limits);
      && Entry(errors, Input(SubmitterName)) == RequiredUnless(!AllWhitespace(d.submitterName))
      && Entry(errors, Input(SubmitterNameTh)) == RequiredUnless(!(isThai && AllWhitespace(d.submitterNameTh)))
      && Entry(errors, Input(SubmitterPhone)) == RequiredUnless(!AllWhitespace(d.submitterPhone))
  {
    MainFormEntry(d, isThai, limits, Input(SubmitterName));
    MainFormEntry(d, isThai, limits, Input(SubmitterNameTh));
    MainFormEntry(d, isThai, limits, Input(SubmitterPhone));
  }

  /** The submitter's age entry: judged against the YOUTH limits like the duration. */
  lemma AgeEntry(d: FormData, isThai: bool, limits: Limits)
    ensures Entry(ValidateMainForm(d, isThai, limits), Input(SubmitterAge)) ==
      CheckedEntry(ValidateAge(ParseInt(d.submitterAge), YOUTH, limits), d.submitterAge == "", InvalidAgeMessage(limits, YOUTH))
  {
    AgeOutcomeEntry(d.submitterAge, YOUTH, limits);
    MainFormEntry(d, isThai, limits, Input(SubmitterAge));
  }

  /** The email entry of `validateMainForm`: a blank address is `required`, any other the
      pattern refuses is `invalidEmail`. */
  lemma EmailEntry(d: FormData, isThai: bool, limits: Limits)
    ensures Entry(ValidateMainForm(d, isThai, limits), Input(SubmitterEmail)) ==
      CheckedEntry(ValidateEmail(d.submitterEmail), AllWhitespace(d.submitterEmail), InvalidEmail)
  {
    EmailOutcomeEntry(d.submitterEmail);
    MainFormEntry(d, isThai, limits, Input(SubmitterEmail));
  }

  /** The role and school entries of `validateMainForm`: the custom role is required exactly
      when the role is `Other`. */
  lemma SchoolEntries(d: FormData, isThai: bool, limits: Limits)
    ensures var errors := ValidateMainForm(d, isThai, limits);
      && Entry(errors, Input(SubmitterRole)) == RequiredUnless(d.submitterRole != "")
      && Entry(errors, Input(SubmitterCustomRole)) ==
           RequiredUnless(!(d.submitterRole == OtherRole && AllWhitespace(d.submitterCustomRole)))
      && Entry(errors, Input(SchoolName)) == RequiredUnless(!AllWhitespace(d.schoolName))
      && Entry(errors, Input(StudentId)) == RequiredUnless(!AllWhitespace(d.studentId))
  {
    MainFormEntry(d, isThai, limits, Input(SubmitterRole));
    MainFormEntry(d, isThai, limits, Input(SubmitterCustomRole));
    MainFormEntry(d, isThai, limits, Input(SchoolName));
    MainFormEntry(d, isThai, limits, Input(StudentId));
  }

  /** The remaining entries of `validateMainForm`: an empty crew, each missing upload under
      its own key, and one `agreements` entry for any unticked box. */
  lemma OtherEntries(d: FormData, isThai: bool, limits: Limits)
    ensures var errors := ValidateMainForm(d, isThai, limits);
      && Entry(errors, CrewMembers) == (if |d.crewMembers| == 0 then Some(Shown(MinCrewMembers)) else None)
      && Entry(errors, FileKey(FilmFile)) == RequiredUnless(d.filmFile.Some?)
      && Entry(errors, FileKey(PosterFile)) == RequiredUnless(d.posterFile.Some?)
      && Entry(errors, FileKey(ProofFile)) == RequiredUnless(d.proofFile.Some?)
      && Entry(errors, Agreements) == (if AllAgreed(d) then None else Some(Shown(AllAgreementsRequired)))
  {
    MainFormEntry(d, isThai, limits, CrewMembers);
    MainFormEntry(d, isThai, limits, FileKey(FilmFile));
    MainFormEntry(d, isThai, limits, FileKey(PosterFile));
    MainFormEntry(d, isThai, limits, FileKey(ProofFile));
    MainFormEntry(d, isThai, limits, Agreements);
  }

  /** A snapshot the form lets through: every field acceptable on its own terms. */
  predicate Submittable(d: FormData, isThai: bool, limits: Limits) {
    && !AllWhitespace(d.filmTitle)
    && (isThai ==> !AllWhitespace(d.filmTitleTh))
    && |d.genres| > 0
    && ValidateDuration(ParseInt(d.duration), limits)
    && !AllWhitespace(d.synopsis)
    && !AllWhitespace(d.chiangmaiConnection)
    && !AllWhitespace(d.submitterName)
    && (isThai ==> !AllWhitespace(d.submitterNameTh))
    && ValidateAge(ParseInt(d.submitterAge), YOUTH, limits)
    && !AllWhitespace(d.submitterPhone)
    && ValidateEmail(d.submitterEmail)
    && d.submitterRole != ""
    && (d.submitterRole == OtherRole ==> !AllWhitespace(d.submitterCustomRole))
    && !AllWhitespace(d.schoolName)
    && !AllWhitespace(d.studentId)
    && |d.crewMembers| > 0
    && d.filmFile.Some? && d.posterFile.Some? && d.proofFile.Some?
    && AllAgreed(d)
  }

  /** The submit gate: the error map is empty exactly when every field is acceptable. */
  lemma ValidateMainFormEmptyIff(d: FormData, isThai: bool, limits: Limits)
    ensures ValidateMainForm(d, isThai, limits) == map[] <==> Submittable(d, isThai, limits)
  {
    var errors := ValidateMainForm(d, isThai, limits);
    FilmEntries(d, isThai, limits);
    SubmitterEntries(d, isThai, limits);
    AgeEntry(d, isThai, limits);
    EmailEntry(d, isThai, limits);
    SchoolEntries(d, isThai, limits);
    OtherEntries(d, isThai, limits);
    assert AllAgreed(d) <==> d.agreement1 && d.agreement2 && d.agreement3 && d.agreement4 by {
      assert AgreementIn(d, Agreement1) && AgreementIn(d, Agreement2) ==> d.agreement1 && d.agreement2;
      assert AgreementIn(d, Agreement3) && AgreementIn(d, Agreement4) ==> d.agreement3 && d.agreement4;
    }
    forall k ensures Submittable(d, isThai, limits) ==> k !in errors {
      RunChecksAddsOnlyTheirKeys(map[], MainFormKeys, MainFormOutcomes(d, isThai, limits), k);
    }
  }

  /** The Thai-only inputs are checked in Thai mode only, and there they are required. */
  lemma ThaiFieldsRequiredOnlyInThaiMode(d: FormData, isThai: bool, limits: Limits)
    ensures var errors := ValidateMainForm(d, isThai, limits);
      && (Input(FilmTitleTh) in errors <==> isThai && AllWhitespace(d.filmTitleTh))
      && (Input(SubmitterNameTh) in errors <==> isThai && AllWhitespace(d.submitterNameTh))
  {
    FilmEntries(d, isThai, limits);
    SubmitterEntries(d, isThai, limits);
  }

  /** In international mode the Thai-only values play no part in validation, and of the
      crew only its size counts. */
  lemma InternationalErrorsIgnoreThaiFields(d: FormData, filmTitleTh: string, submitterNameTh: string, crew: seq<CrewMember>, limits: Limits)
    requires |crew| == |d.crewMembers|
    ensures var e := d.(filmTitleTh := filmTitleTh, submitterNameTh := submitterNameTh, crewMembers := crew);
      ValidateMainForm(e, false, limits) == ValidateMainForm(d, false, limits)
  {
    var e := d.(filmTitleTh := filmTitleTh, submitterNameTh := submitterNameTh, crewMembers := crew);
    assert AllAgreed(e) == AllAgreed(d) by {
      assert forall flag :: AgreementIn(e, flag) == AgreementIn(d, flag);
    }
    forall k ensures Outcome(e, false, limits, k) == Outcome(d, false, limits, k) {
    }
    assert MainFormOutcomes(e, false, limits) == MainFormOutcomes(d, false, limits);
  }

  /** Hence clearing the Thai-only values when switching to international changes no
      error. */
  lemma ClearingThaiFieldsKeepsInternationalErrors(d: FormData, limits: Limits)
    ensures ValidateMainForm(ClearThaiFields(d), false, limits) == ValidateMainForm(d, false, limits)
  {
    var c := ClearThaiFields(d);
    InternationalErrorsIgnoreThaiFields(d, "", "", c.crewMembers, limits);
  }

  /** Switching back to Thai mode after the Thai-only values were cleared reports both as
      missing. */
  lemma ClearedThaiFieldsRequiredInThaiMode(d: FormData, limits: Limits)
    ensures var errors := ValidateMainForm(ClearThaiFields(d), true, limits);
      Entry(errors, Input(FilmTitleTh)) == Some(Shown(Required)) && Entry(errors, Input(SubmitterNameTh)) == Some(Shown(Required))
  {
    var c := ClearThaiFields(d);
    assert AllWhitespace(c.filmTitleTh) && AllWhitespace(c.submitterNameTh);
    FilmEntries(c, true, limits);
    SubmitterEntries(c, true, limits);
  }

  // ---------------------------------------------------------------------------
  // The persisted record
  // ---------------------------------------------------------------------------

  /** The document handed to the `submissions` collection (the server timestamp aside). */
  datatype Record = Record(
    category: string,
    nationality: string,
    filmTitle: string,
    filmTitleTh: Option<string>,
    genres: seq<string>,
    duration: Option<int>,
    synopsis: string,
    chiangmaiConnection: string,
    submitterName: string,
    submitterNameTh: Option<string>,
    submitterAge: Option<int>,
    submitterPhone: string,
    submitterEmail: string,
    submitterRole: string,
    submitterCustomRole: Option<string>,
    schoolName: string,
    studentId: string,
    crewMembers: seq<CrewMember>,
    agreements: AgreementsRecord,
    status: string)

  const YouthCategory: string := "youth"

  /** The record literal of `handleSubmit`: each text input lands in its own field, the two
      numbers as `parseInt` reads them, the Thai values only in Thai mode, the custom role as
      null when empty, and the four checkboxes under their agreement names. */
  function BuildRecord(d: FormData, isThai: bool): (r: Record)
    ensures r.category == YouthCategory && r.status == Submitted
    ensures && r.filmTitle == d.filmTitle && r.synopsis == d.synopsis
            && r.chiangmaiConnection == d.chiangmaiConnection && r.submitterName == d.submitterName
            && r.submitterPhone == d.submitterPhone && r.submitterEmail == d.submitterEmail
            && r.submitterRole == d.submitterRole && r.schoolName == d.schoolName
            && r.studentId == d.studentId
    ensures r.duration == ParseInt(d.duration) && r.submitterAge == ParseInt(d.submitterAge)
    ensures (r.filmTitleTh.Some? <==> isThai) && (isThai ==> r.filmTitleTh.value == d.filmTitleTh)
    ensures (r.submitterNameTh.Some? <==> isThai) && (isThai ==> r.submitterNameTh.value == d.submitterNameTh)
    ensures r.submitterCustomRole == (if d.submitterCustomRole == "" then None else Some(d.submitterCustomRole))
    ensures r.nationality == d.nationality && r.genres == d.genres && r.crewMembers == d.crewMembers
    ensures r.agreements == AgreementsRecord(d.agreement1, d.agreement2, d.agreement3, d.agreement4)
  {
    Record(
      YouthCategory,
      d.nationality,
      d.filmTitle,
      if isThai then Some(d.filmTitleTh) else None,
      d.genres,
      ParseInt(d.duration),
      d.synopsis,
      d.chiangmaiConnection,
      d.submitterName,
      if isThai then Some(d.submitterNameTh) else None,
      ParseInt(d.submitterAge),
      d.submitterPhone,
      d.submitterEmail,
      d.submitterRole,
      NullIfEmpty(d.submitterCustomRole),
      d.schoolName,
      d.studentId,
      d.crewMembers,
      AgreementsRecord(d.agreement1, d.agreement2, d.agreement3, d.agreement4),
      Submitted)
  }

  /** Every record the gate lets through is well formed: numbers in range, a valid address,
      a crew, all four agreements given, and the Thai fields present exactly in Thai mode. */
  lemma AcceptedRecordIsWellFormed(d: FormData, isThai: bool, limits: Limits)
    requires ValidateMainForm(d, isThai, limits) == map[]
    ensures var r := BuildRecord(d, isThai);
      && ValidateDuration(r.duration, limits)
      && ValidateAge(r.submitterAge, YOUTH, limits)
      && ValidateEmail(r.submitterEmail)
      && |r.genres| > 0 && |r.crewMembers| > 0
      && r.agreements == AgreementsRecord(true, true, true, true)
      && (r.filmTitleTh.Some? <==> isThai) && (r.submitterNameTh.Some? <==> isThai)
      && (r.filmTitleTh.Some? ==> !AllWhitespace(r.filmTitleTh.value))
      && (r.submitterNameTh.Some? ==> !AllWhitespace(r.submitterNameTh.value))
      && (r.submitterRole == OtherRole ==> r.submitterCustomRole.Some? && !AllWhitespace(r.submitterCustomRole.value))
      && (r.submitterCustomRole.None? <==> d.submitterCustomRole == "")
      && r.category == YouthCategory && r.status == Submitted
  {
    ValidateMainFormEmptyIff(d, isThai, limits);
    assert AgreementIn(d, Agreement1) && AgreementIn(d, Agreement2);
    assert AgreementIn(d, Agreement3) && AgreementIn(d, Agreement4);
    assert Trim("") == [];
  }

  // ---------------------------------------------------------------------------
  // The component
  // ---------------------------------------------------------------------------

  /** The form's state cells; `limits` are the age and duration bounds it validates with. */
  class YouthSubmissionForm {
    const limits: Limits
    var formData: FormData
    var formErrors: Errors
    var isThaiNationality: bool
    var isSubmitting: bool
    var submitSuccess: bool

    constructor (limits: Limits)
      ensures this.limits == limits
      ensures formData == InitialFormData && formErrors == map[]
      ensures isThaiNationality && !isSubmitting && !submitSuccess
    {
      this.limits := limits;
      formData := InitialFormData;
      formErrors := map[];
      isThaiNationality := true;
      isSubmitting := false;
      submitSuccess := false;
    }

    /** `handleInputChange` for a text, number, select or textarea input. */
    method HandleInputChange(name: TextField, value: string)
      modifies this`formData, this`formErrors
      ensures formData == WithText(old(formData), name, value)
      ensures formErrors == ClearError(old(formErrors), Input(name))
    {
      formData := WithText(formData, name, value);
      formErrors := ClearError(formErrors, Input(name));
    }

    method HandleGenreChange(genres: seq<string>)
      modifies this`formData, this`formErrors
      ensures formData == old(formData).(genres := genres)
      ensures formErrors == ClearError(old(formErrors), Genres)
    {
      formData := formData.(genres := genres);
      formErrors := ClearError(formErrors, Genres);
    }

    method HandleCrewMembersChange(crewMembers: seq<CrewMember>)
      modifies this`formData, this`formErrors
      ensures formData == old(formData).(crewMembers := crewMembers)
      ensures formErrors == ClearError(old(formErrors), CrewMembers)
    {
      formData := formData.(crewMembers := crewMembers);
      formErrors := ClearError(formErrors, CrewMembers);
    }

    /** Any checkbox blanks the one `agreements` entry. */
    method HandleAgreementChange(flag: AgreementFlag, checked: bool)
      modifies this`formData, this`formErrors
      ensures formData == WithAgreement(old(formData), flag, checked)
      ensures formErrors == ClearError(old(formErrors), Agreements)
    {
      formData := WithAgreement(formData, flag, checked);
      formErrors := ClearError(formErrors, Agreements);
    }

    method HandleNationalityChange(nationality: string)
      modifies this`formData
      ensures formData == old(formData).(nationality := nationality)
    {
      formData := formData.(nationality := nationality);
    }

    /** Switching to international wipes the Thai-only values; switching to Thai keeps the
        snapshot as it is. Errors are left alone either way. */
    method HandleNationalityTypeChange(isThai: bool)
      modifies this`isThaiNationality, this`formData
      ensures isThaiNationality == isThai
      ensures formData == if isThai then old(formData) else ClearThaiFields(old(formData))
    {
      isThaiNationality := isThai;
      if !isThai {
        formData := ClearThaiFields(formData);
      }
    }

    method HandleFileChange(slot: FileSlot, file: Option<File>)
      modifies this`formData, this`formErrors
      ensures formData == WithFile(old(formData), slot, file)
      ensures formErrors == ClearError(old(formErrors), FileKey(slot))
    {
      formData := WithFile(formData, slot, file);
      formErrors := ClearError(formErrors, FileKey(slot));
    }

    /** `handleSubmit`, with the store's answer as `writeSucceeds`. A snapshot with errors
        has them stored and nothing is written; otherwise the record is handed to the store
        (`document`), the form is no longer submitting afterwards, and success is recorded
        only when the write went through. */
    method HandleSubmit(writeSucceeds: bool) returns (document: Option<Record>)
      modifies this`formErrors, this`isSubmitting, this`submitSuccess
      ensures var errors := ValidateMainForm(old(formData), old(isThaiNationality), limits);
        if errors != map[] then
          && document == None
          && formErrors == errors
          && isSubmitting == old(isSubmitting) && submitSuccess == old(submitSuccess)
        else
          && document == Some(BuildRecord(old(formData), old(isThaiNationality)))
          && formErrors == old(formErrors)
          && !isSubmitting
          && submitSuccess == (old(submitSuccess) || writeSucceeds)
      ensures document.Some? <==> Submittable(old(formData), old(isThaiNationality), limits)
    {
      var d, isThai := formData, isThaiNationality;
      var errors := ValidateMainForm(d, isThai, limits);
      ValidateMainFormEmptyIff(d, isThai, limits);
      if errors != map[] {
        formErrors := errors;
        return None;
      }
      isSubmitting := true;
      document := Some(BuildRecord(d, isThai));
      if writeSucceeds {
        submitSuccess := true;
      }
      isSubmitting := false;
    }
  }
}
