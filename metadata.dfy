/**
 * core/metadata.py: the guild configuration record. Every field is named in
 * `Field`, and `Get` reads any field as a `Value`, the way the document store
 * sees it; `WellTyped` says which values the record's annotations admit.
 */
module Metadata {

  import opened Wrappers

  datatype MetaData = MetaData(
    loggingChannelId: Option<int>,
    generalChannelId: Option<int>,
    adminRoleId: Option<int>,
    botRoleId: Option<int>,
    seniorRoleId: Option<int>,
    hmodRoleId: Option<int>,
    smodRoleId: Option<int>,
    rmodRoleId: Option<int>,
    tmodRoleId: Option<int>,
    helperRoleId: Option<int>,
    activeRoleId: Option<int>,
    domainBl: seq<string>,
    domainWl: seq<string>,
    eventIgnoredRoleIds: seq<int>,
    automodIgnoredRoleIds: seq<int>,
    eventIgnoredChannelIds: seq<int>,
    automodIgnoredChannelIds: seq<int>,
    activity: Option<string>,
    greeting: Option<string>,
    appealUrl: Option<string>)

  /** The keys of a metadata document, one per record field. */
  datatype Field =
    | LoggingChannelId | GeneralChannelId
    | AdminRoleId | BotRoleId | SeniorRoleId | HmodRoleId | SmodRoleId
    | RmodRoleId | TmodRoleId | HelperRoleId | ActiveRoleId
    | DomainBl | DomainWl
    | EventIgnoredRoleIds | AutomodIgnoredRoleIds | EventIgnoredChannelIds | AutomodIgnoredChannelIds
    | Activity | Greeting | AppealUrl

  /** A stored document value: null, an integer, a string, or a list of either. */
  datatype Value = Null | Int(i: int) | Text(s: string) | Ints(ints: seq<int>) | Texts(texts: seq<string>)

  /** Fields annotated `int | None`. */
  predicate IsIdField(f: Field) {
    f.LoggingChannelId? || f.GeneralChannelId? || f.AdminRoleId? || f.BotRoleId? || f.SeniorRoleId?
    || f.HmodRoleId? || f.SmodRoleId? || f.RmodRoleId? || f.TmodRoleId? || f.HelperRoleId? || f.ActiveRoleId?
  }

  /** Fields annotated `list[str]`. */
  predicate IsTextListField(f: Field) {
    f.DomainBl? || f.DomainWl?
  }

  /** Fields annotated `list[int]`. */
  predicate IsIdListField(f: Field) {
    f.EventIgnoredRoleIds? || f.AutomodIgnoredRoleIds? || f.EventIgnoredChannelIds? || f.AutomodIgnoredChannelIds?
  }

  /** Fields annotated `str | None` are the remaining three. */
  predicate IsTextField(f: Field) {
    f.Activity? || f.Greeting? || f.AppealUrl?
  }

  /** The values the record's annotation admits for field `f`. */
  predicate WellTyped(f: Field, v: Value) {
    if IsIdField(f) then v.Null? || v.Int?
    else if IsTextListField(f) then v.Texts?
    else if IsIdListField(f) then v.Ints?
    else v.Null? || v.Text?
  }

  function FromId(o: Option<int>): Value {
    match o
    case None => Null
    case Some(i) => Int(i)
  }

  function FromText(o: Option<string>): Value {
    match o
    case None => Null
    case Some(s) => Text(s)
  }

  function ToId(v: Value): Option<int> {
    if v.Int? then Some(v.i) else None
  }

  function ToText(v: Value): Option<string> {
    if v.Text? then Some(v.s) else None
  }

  function ToInts(v: Value): seq<int> {
    if v.Ints? then v.ints else []
  }

  function ToTexts(v: Value): seq<string> {
    if v.Texts? then v.texts else []
  }

  /** Field `f` of `m`, as the document store holds it; always well typed. */
  function Get(m: MetaData, f: Field): (v: Value)
    ensures WellTyped(f, v)
  {
    match f
    case LoggingChannelId => FromId(m.loggingChannelId)
    case GeneralChannelId => FromId(m.generalChannelId)
    case AdminRoleId => FromId(m.adminRoleId)
    case BotRoleId => FromId(m.botRoleId)
    case SeniorRoleId => FromId(m.seniorRoleId)
    case HmodRoleId => FromId(m.hmodRoleId)
    case SmodRoleId => FromId(m.smodRoleId)
    case RmodRoleId => FromId(m.rmodRoleId)
    case TmodRoleId => FromId(m.tmodRoleId)
    case HelperRoleId => FromId(m.helperRoleId)
    case ActiveRoleId => FromId(m.activeRoleId)
    case DomainBl => Texts(m.domainBl)
    case DomainWl => Texts(m.domainWl)
    case EventIgnoredRoleIds => Ints(m.eventIgnoredRoleIds)
    case AutomodIgnoredRoleIds => Ints(m.automodIgnoredRoleIds)
    case EventIgnoredChannelIds => Ints(m.eventIgnoredChannelIds)
    case AutomodIgnoredChannelIds => Ints(m.automodIgnoredChannelIds)
    case Activity => FromText(m.activity)
    case Greeting => FromText(m.greeting)
    case AppealUrl => FromText(m.appealUrl)
  }

  /** Two records agree on every field only when they are the same record. */
  lemma {:induction false} GetDetermines(m: MetaData, n: MetaData)
    requires forall f :: Get(m, f) == Get(n, f)
    ensures m == n
  {
    assert Get(m, LoggingChannelId) == Get(n, LoggingChannelId);
    assert Get(m, GeneralChannelId) == Get(n, GeneralChannelId);
    assert Get(m, AdminRoleId) == Get(n, AdminRoleId);
    assert Get(m, BotRoleId) == Get(n, BotRoleId);
    assert Get(m, SeniorRoleId) == Get(n, SeniorRoleId);
    assert Get(m, HmodRoleId) == Get(n, HmodRoleId);
    assert Get(m, SmodRoleId) == Get(n, SmodRoleId);
    assert Get(m, RmodRoleId) == Get(n, RmodRoleId);
    assert Get(m, TmodRoleId) == Get(n, TmodRoleId);
    assert Get(m, HelperRoleId) == Get(n, HelperRoleId);
    assert Get(m, ActiveRoleId) == Get(n, ActiveRoleId);
    assert Get(m, DomainBl) == Get(n, DomainBl);
    assert Get(m, DomainWl) == Get(n, DomainWl);
    assert Get(m, EventIgnoredRoleIds) == Get(n, EventIgnoredRoleIds);
    assert Get(m, AutomodIgnoredRoleIds) == Get(n, AutomodIgnoredRoleIds);
    assert Get(m, EventIgnoredChannelIds) == Get(n, EventIgnoredChannelIds);
    assert Get(m, AutomodIgnoredChannelIds) == Get(n, AutomodIgnoredChannelIds);
    assert Get(m, Activity) == Get(n, Activity);
    assert Get(m, Greeting) == Get(n, Greeting);
    assert Get(m, AppealUrl) == Get(n, AppealUrl);
  }
}
