/**
 * Per-item responses as the application stores them under `state.scores`,
 * the two roles, and the pure read and update rules over those records.
 */
module Responses {

  import opened Wrappers

  /**
   * A stored response. `Record` is the current shape `{author, reviewer}`
   * (a missing or null field is `None`); `Legacy` is the older shape, a bare
   * reviewer choice string.
   */
  datatype Entry =
    | Legacy(choice: string)
    | Record(author: Option<string>, reviewer: Option<string>)

  datatype Role = Author | Reviewer

  const ROLE_AUTHOR: string := "author"
  const ROLE_REVIEWER: string := "reviewer"

  const AUTHOR_OPTIONS: seq<string> := ["NA", "No", "Yes"]
  const REVIEWER_OPTIONS: seq<string> := ["OK", "mR", "MR"]

  /** The string the application stores for a role. */
  function RoleName(r: Role): string
  {
    match r
    case Author => ROLE_AUTHOR
    case Reviewer => ROLE_REVIEWER
  }

  /** Role normalisation: only the exact string "author" selects the author role. */
  function RoleOf(value: Option<string>): (r: Role)
    ensures r == Author <==> value == Some(ROLE_AUTHOR)
    ensures RoleName(r) == ROLE_AUTHOR <==> value == Some(ROLE_AUTHOR)
    ensures value != Some(ROLE_AUTHOR) ==> RoleName(r) == ROLE_REVIEWER
  {
    if value == Some(ROLE_AUTHOR) then Author else Reviewer
  }

  lemma RoleOfRoleName(r: Role)
    ensures RoleOf(Some(RoleName(r))) == r
  {
  }

  /** Normalising twice is normalising once, whatever was stored. */
  lemma RoleNormalisationIdempotent(value: Option<string>)
    ensures RoleName(RoleOf(value)) in {ROLE_AUTHOR, ROLE_REVIEWER}
    ensures RoleOf(Some(RoleName(RoleOf(value)))) == RoleOf(value)
    ensures RoleOf(value) == Author <==> value == Some(ROLE_AUTHOR)
  {
  }

  /** The choice buttons offered to a role (`getOptionsForCurrentRole`). */
  function OptionsFor(r: Role): (options: seq<string>)
    ensures options == AUTHOR_OPTIONS <==> r == Author
    ensures options == REVIEWER_OPTIONS <==> r == Reviewer
    ensures |options| == 3
  {
    assert AUTHOR_OPTIONS[0] != REVIEWER_OPTIONS[0];
    match r
    case Author => AUTHOR_OPTIONS
    case Reviewer => REVIEWER_OPTIONS
  }

  /** JavaScript truthiness of an optional string: present and non-empty. */
  predicate Truthy(value: Option<string>)
  {
    value.Some? && value.value != ""
  }

  /** `value || null` for an optional string. */
  function OrNull(value: Option<string>): (r: Option<string>)
    ensures r.Some? <==> Truthy(value)
    ensures r.Some? ==> r == value
  {
    if Truthy(value) then value else None
  }

  /** `state.scores[code]`, absent as `None`. */
  function Lookup(scores: map<string, Entry>, code: string): Option<Entry>
  {
    if code in scores then Some(scores[code]) else None
  }

  /** `getReviewerChoiceForItem`: a legacy string is the reviewer's choice. */
  function ReviewerChoice(scores: map<string, Entry>, code: string): (r: Option<string>)
    ensures code !in scores ==> r == None
    ensures code in scores && scores[code].Legacy? ==> r == OrNull(Some(scores[code].choice))
    ensures code in scores && scores[code].Record? ==> r == OrNull(scores[code].reviewer)
  {
    match Lookup(scores, code)
    case None => None
    case Some(Legacy(s)) => if s == "" then None else Some(s)
    case Some(Record(_, reviewer)) => OrNull(reviewer)
  }

  /** `getAuthorChoiceForItem`: a legacy string carries no author answer. */
  function AuthorChoice(scores: map<string, Entry>, code: string): (r: Option<string>)
    ensures code !in scores ==> r == None
    ensures code in scores && scores[code].Legacy? ==> r == None
    ensures code in scores && scores[code].Record? ==> r == OrNull(scores[code].author)
  {
    match Lookup(scores, code)
    case None => None
    case Some(Legacy(_)) => None
    case Some(Record(author, _)) => OrNull(author)
  }

  /** The choice that the getter for role `r` reads. */
  function ChoiceFor(scores: map<string, Entry>, code: string, r: Role): Option<string>
  {
    if r == Author then AuthorChoice(scores, code) else ReviewerChoice(scores, code)
  }

  /** The field of a stored entry that belongs to a role, as the record form has it. */
  function Field(e: Entry, r: Role): Option<string>
  {
    match e
    case Legacy(s) => if r == Reviewer then Some(s) else None
    case Record(author, reviewer) => if r == Author then author else reviewer
  }

  //-----------------------------------------------------------
  // Legacy migration
  //-----------------------------------------------------------

  /** The upgrade of one entry: a bare string `s` becomes `{author: null, reviewer: s}`. */
  function Migrated(e: Entry): (m: Entry)
    ensures m.Record?
    ensures e.Record? ==> m == e
    ensures e.Legacy? ==> m.author == None && m.reviewer == Some(e.choice)
  {
    match e
    case Legacy(s) => Record(None, Some(s))
    case Record(_, _) => e
  }

  /** `migrateLegacyState` on `state.scores`: every entry upgraded, keys unchanged. */
  function MigratedScores(scores: map<string, Entry>): (m: map<string, Entry>)
    ensures m.Keys == scores.Keys
  {
    map code | code in scores :: Migrated(scores[code])
  }

  predicate HasLegacy(scores: map<string, Entry>)
  {
    exists code :: code in scores && scores[code].Legacy?
  }

  /** After migration no legacy entry is left, and a second migration changes nothing. */
  lemma MigrationIdempotent(scores: map<string, Entry>)
    ensures !HasLegacy(MigratedScores(scores))
    ensures MigratedScores(MigratedScores(scores)) == MigratedScores(scores)
  {
  }

  /** Migration leaves a store without legacy entries exactly as it is. */
  lemma MigrationOfMigratedIsIdentity(scores: map<string, Entry>)
    ensures MigratedScores(scores) == scores <==> !HasLegacy(scores)
  {
  }

  /** Both read paths give the same answers before and after migration. */
  lemma MigrationPreservesChoices(scores: map<string, Entry>, code: string)
    ensures ReviewerChoice(MigratedScores(scores), code) == ReviewerChoice(scores, code)
    ensures AuthorChoice(MigratedScores(scores), code) == AuthorChoice(scores, code)
  {
  }

  //-----------------------------------------------------------
  // Recording a choice (the choice-button click handler)
  //-----------------------------------------------------------

  /**
   * The entry the click handler stores: a fresh record for a missing entry,
   * a record keeping the string as `reviewer` for a legacy entry, or a copy of
   * the record; then only the clicked role's field is set to `choice`.
   */
  function WithChoice(prev: Option<Entry>, r: Role, choice: string): (e: Entry)
    ensures e.Record?
    ensures Field(e, r) == Some(choice)
    ensures prev.None? ==> Field(e, OtherRole(r)) == None
    ensures prev.Some? ==> Field(e, OtherRole(r)) == Field(prev.value, OtherRole(r))
  {
    var entry :=
      match prev
      case None => Record(None, None)
      case Some(Legacy(s)) => Record(None, Some(s))
      case Some(Record(_, _)) => prev.value;
    if r == Author then entry.(author := Some(choice)) else entry.(reviewer := Some(choice))
  }

  function OtherRole(r: Role): Role
  {
    if r == Author then Reviewer else Author
  }

  /**
   * Recording a choice for role `r` on `code`: the getter for `r` now reads
   * that choice, the other role's getter reads what it read before, and
   * every other item is untouched.
   */
  lemma RecordingSetsOnlyOneField(scores: map<string, Entry>, code: string, r: Role, choice: string, other: string)
    ensures var updated := scores[code := WithChoice(Lookup(scores, code), r, choice)];
      && ChoiceFor(updated, code, r) == OrNull(Some(choice))
      && ChoiceFor(updated, code, OtherRole(r)) == ChoiceFor(scores, code, OtherRole(r))
      && (other != code ==> Lookup(updated, other) == Lookup(scores, other))
  {
  }
}
