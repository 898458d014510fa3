/** The lead schema: which paths a lead has, which are required, the
    allowed values of `source` and `status`, the bounds on `score`, the
    defaults, and the lower-casing of `email`. */
module LeadModel {
  import opened Wrappers
  import opened JsString

  type UserId = nat
  type LeadId = nat

  /** A `Date` path holds a timestamp or null. */
  datatype DateValue = Null | At(time: int)

  /** The schema's paths of one lead. `None` is a path the document (or a
      request body) does not set. A request body is modelled by the schema
      paths it sets; other keys, and update operators such as `$inc`, are
      not part of this model. */
  datatype LeadDoc = LeadDoc(
    first_name: Option<string>,
    last_name: Option<string>,
    email: Option<string>,
    phone: Option<string>,
    company: Option<string>,
    city: Option<string>,
    state: Option<string>,
    source: Option<string>,
    status: Option<string>,
    score: Option<int>,
    lead_value: Option<int>,
    last_activity_at: Option<DateValue>,
    is_qualified: Option<bool>,
    createdBy: Option<UserId>)

  /** A stored lead: its id, its paths, and the two automatic timestamps. */
  datatype Lead = Lead(id: LeadId, doc: LeadDoc, created_at: int, updated_at: int)

  const Sources: seq<string> := ["website", "facebook_ads", "google_ads", "referral", "events", "other"]
  const Statuses: seq<string> := ["new", "contacted", "qualified", "lost", "won"]
  const DefaultStatus: string := "new"
  const MinScore: int := 0
  const MaxScore: int := 100

  /** The mapper's `required` check on a String path: set and non-empty. */
  predicate HasText(v: Option<string>) {
    v.Some? && v.value != ""
  }

  /** Every validator of the schema holds. Enum and range validators accept
      an unset path; `required` ones do not. */
  predicate Valid(d: LeadDoc) {
    && HasText(d.first_name)
    && HasText(d.email)
    && d.source.Some? && d.source.value in Sources
    && (d.status.Some? ==> d.status.value in Statuses)
    && (d.score.Some? ==> MinScore <= d.score.value <= MaxScore)
    && d.createdBy.Some?
  }

  /** What every stored lead satisfies: valid, its email lower-case, and
      the defaulted paths filled in. */
  predicate Stored(d: LeadDoc) {
    && Valid(d)
    && NoUpper(d.email.value)
    && d.status.Some? && d.last_activity_at.Some? && d.is_qualified.Some?
  }

  function EmailOf(d: LeadDoc): string {
    d.email.GetOr("")
  }

  /** The `lowercase: true` setter, applied whenever `email` is assigned. */
  function Lowercased(d: LeadDoc): (r: LeadDoc)
    ensures r.email.Some? <==> d.email.Some?
    ensures r.email.Some? ==> r.email.value == ToLower(d.email.value)
    ensures r.email.Some? ==> NoUpper(r.email.value) && |r.email.value| == |d.email.value|
    ensures d.email.Some? && NoUpper(d.email.value) ==> r == d
    ensures r.(email := d.email) == d
  {
    if d.email.Some? then
      assert NoUpper(d.email.value) ==> ToLower(d.email.value) == d.email.value by {
        if NoUpper(d.email.value) {
          ToLowerOfLower(d.email.value);
        }
      }
      d.(email := Some(ToLower(d.email.value)))
    else d
  }

  /** The schema defaults, applied to paths a new document leaves unset:
      `status` "new", `last_activity_at` null, `is_qualified` false. */
  function WithDefaults(d: LeadDoc): (r: LeadDoc)
    ensures r.status.Some? && r.last_activity_at.Some? && r.is_qualified.Some?
    ensures d.status.Some? ==> r.status == d.status
    ensures d.status.None? ==> r.status == Some(DefaultStatus)
    ensures d.last_activity_at.Some? ==> r.last_activity_at == d.last_activity_at
    ensures d.last_activity_at.None? ==> r.last_activity_at == Some(Null)
    ensures d.is_qualified.Some? ==> r.is_qualified == d.is_qualified
    ensures d.is_qualified.None? ==> r.is_qualified == Some(false)
    ensures r.(status := d.status, last_activity_at := d.last_activity_at, is_qualified := d.is_qualified) == d
  {
    d.(status := if d.status.Some? then d.status else Some(DefaultStatus),
       last_activity_at := if d.last_activity_at.Some? then d.last_activity_at else Some(Null),
       is_qualified := if d.is_qualified.Some? then d.is_qualified else Some(false))
  }

  /** The validated paths of the schema. */
  datatype LeadPath = FirstName | Email | Source | Status | Score | CreatedBy

  /** The name under which a validation error reports a path. */
  function PathName(p: LeadPath): string {
    match p
    case FirstName => "first_name"
    case Email => "email"
    case Source => "source"
    case Status => "status"
    case Score => "score"
    case CreatedBy => "createdBy"
  }

  function PathNames(ps: seq<LeadPath>): (r: seq<string>)
    ensures |r| == |ps| && forall k :: 0 <= k < |ps| ==> r[k] == PathName(ps[k])
  {
    if ps == [] then [] else [PathName(ps[0])] + PathNames(ps[1..])
  }

  /** `[p]` when its validator fails, `[]` otherwise. */
  function Flag(fails: bool, p: LeadPath): (r: seq<LeadPath>)
    ensures r == [] <==> !fails
    ensures forall q :: q in r <==> fails && q == p
  {
    if fails then [p] else []
  }

  /** The paths whose validators fail when a whole document is saved, in
      schema order; one entry per path, and each path listed exactly when
      one of its validators fails. */
  function CreateErrors(d: LeadDoc): (paths: seq<LeadPath>)
    ensures paths == [] <==> Valid(d)
    ensures FirstName in paths <==> !HasText(d.first_name)
    ensures Email in paths <==> !HasText(d.email)
    ensures Source in paths <==> !(d.source.Some? && d.source.value in Sources)
    ensures Status in paths <==> d.status.Some? && d.status.value !in Statuses
    ensures Score in paths <==> d.score.Some? && !(MinScore <= d.score.value <= MaxScore)
    ensures CreatedBy in paths <==> d.createdBy.None?
  {
    RequiredErrors(d) + RangeErrors(d)
  }

  /** The failing `required` and `enum` validators of `first_name`,
      `email` and `source`. */
  function RequiredErrors(d: LeadDoc): (paths: seq<LeadPath>)
    ensures paths == [] <==> HasText(d.first_name) && HasText(d.email) && d.source.Some? && d.source.value in Sources
    ensures forall q :: q in paths <==>
      || (q == FirstName && !HasText(d.first_name))
      || (q == Email && !HasText(d.email))
      || (q == Source && !(d.source.Some? && d.source.value in Sources))
  {
    Flag(!HasText(d.first_name), FirstName)
    + Flag(!HasText(d.email), Email)
    + Flag(!(d.source.Some? && d.source.value in Sources), Source)
  }

  /** The failing validators of `status`, `score` and `createdBy`. */
  function RangeErrors(d: LeadDoc): (paths: seq<LeadPath>)
    ensures paths == [] <==>
      && (d.status.Some? ==> d.status.value in Statuses)
      && (d.score.Some? ==> MinScore <= d.score.value <= MaxScore)
      && d.createdBy.Some?
    ensures forall q :: q in paths <==>
      || (q == Status && d.status.Some? && d.status.value !in Statuses)
      || (q == Score && d.score.Some? && !(MinScore <= d.score.value <= MaxScore))
      || (q == CreatedBy && d.createdBy.None?)
  {
    Flag(d.status.Some? && d.status.value !in Statuses, Status)
    + Flag(d.score.Some? && !(MinScore <= d.score.value <= MaxScore), Score)
    + Flag(d.createdBy.None?, CreatedBy)
  }

  /** Update validators: only the paths an update sets are checked, each
      with all of its validators (so setting a required path to "" fails). */
  predicate PatchValid(p: LeadDoc) {
    && (p.first_name.Some? ==> p.first_name.value != "")
    && (p.email.Some? ==> p.email.value != "")
    && (p.source.Some? ==> p.source.value in Sources)
    && (p.status.Some? ==> p.status.value in Statuses)
    && (p.score.Some? ==> MinScore <= p.score.value <= MaxScore)
  }

  function UpdateErrors(p: LeadDoc): (paths: seq<LeadPath>)
    ensures paths == [] <==> PatchValid(p)
    ensures FirstName in paths <==> p.first_name == Some("")
    ensures Email in paths <==> p.email == Some("")
    ensures Source in paths <==> p.source.Some? && p.source.value !in Sources
    ensures Status in paths <==> p.status.Some? && p.status.value !in Statuses
    ensures Score in paths <==> p.score.Some? && !(MinScore <= p.score.value <= MaxScore)
    ensures CreatedBy !in paths
  {
    Flag(p.first_name == Some(""), FirstName)
    + Flag(p.email == Some(""), Email)
    + Flag(p.source.Some? && p.source.value !in Sources, Source)
    + Flag(p.status.Some? && p.status.value !in Statuses, Status)
    + Flag(p.score.Some? && !(MinScore <= p.score.value <= MaxScore), Score)
  }

  function Pick<T>(patch: Option<T>, current: Option<T>): Option<T> {
    if patch.Some? then patch else current
  }

  /** `$set` of the paths an update body provides; the others keep their value. */
  function Merge(d: LeadDoc, p: LeadDoc): LeadDoc {
    LeadDoc(
      Pick(p.first_name, d.first_name), Pick(p.last_name, d.last_name), Pick(p.email, d.email),
      Pick(p.phone, d.phone), Pick(p.company, d.company), Pick(p.city, d.city), Pick(p.state, d.state),
      Pick(p.source, d.source), Pick(p.status, d.status), Pick(p.score, d.score),
      Pick(p.lead_value, d.lead_value), Pick(p.last_activity_at, d.last_activity_at),
      Pick(p.is_qualified, d.is_qualified), Pick(p.createdBy, d.createdBy))
  }

  /** Because update validators check every path an update sets, an update
      that passes them keeps a stored lead stored-valid. */
  lemma MergeKeepsStored(d: LeadDoc, p: LeadDoc)
    requires Stored(d) && UpdateErrors(p) == []
    ensures Stored(Merge(d, Lowercased(p)))
  {
    var q := Lowercased(p);
    assert q.(email := p.email) == p;
    assert PatchValid(q);
  }

  /** A document that passes `CreateErrors` after the setters and defaults
      is one the store may hold. */
  lemma NewDocStored(body: LeadDoc)
    requires CreateErrors(WithDefaults(Lowercased(body))) == []
    ensures Stored(WithDefaults(Lowercased(body)))
  {
  }

  /** The defaults of an empty body, and what the validators then still
      require of it. */
  lemma EmptyBodyDefaults()
    ensures var d := WithDefaults(LeadDoc(None, None, None, None, None, None, None, None, None, None, None, None, None, None));
      && d.status == Some("new") && d.last_activity_at == Some(Null) && d.is_qualified == Some(false)
      && CreateErrors(d) == [FirstName, Email, Source, CreatedBy]
  {
  }
}
