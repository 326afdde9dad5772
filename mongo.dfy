/**
 * core/mongo.py: the bot's document-store client, reduced to the three
 * operations with logic of their own. Each collection is an in-memory
 * sequence of documents in the store's natural order, and operations run one
 * at a time.
 */
module Mongo {

  import opened Wrappers
  import opened Metadata
  import opened Modlogs

  /** A stored metadata document: its `_id` and the remaining keys. */
  datatype MetaDataDoc = MetaDataDoc(oid: int, meta: MetaData)

  /** The value a field of the freshly inserted configuration document holds. */
  function Unset(f: Field): Value {
    if IsTextListField(f) then Texts([])
    else if IsIdListField(f) then Ints([])
    else Null
  }

  /** The document `get_metadata` inserts when none exists. */
  function Defaults(): (m: MetaData)
    ensures forall f :: Get(m, f) == Unset(f)
  {
    MetaData(None, None, None, None, None, None, None, None, None, None, None,
             [], [], [], [], [], [], None, None, None)
  }

  /**
   * `$set` with the keyword arguments `kwargs`: the named fields take the
   * given values, every other field keeps its value.
   */
  function Apply(m: MetaData, kwargs: map<Field, Value>): (r: MetaData)
    requires forall f | f in kwargs :: WellTyped(f, kwargs[f])
  {
    MetaData(
      if LoggingChannelId in kwargs then ToId(kwargs[LoggingChannelId]) else m.loggingChannelId,
      if GeneralChannelId in kwargs then ToId(kwargs[GeneralChannelId]) else m.generalChannelId,
      if AdminRoleId in kwargs then ToId(kwargs[AdminRoleId]) else m.adminRoleId,
      if BotRoleId in kwargs then ToId(kwargs[BotRoleId]) else m.botRoleId,
      if SeniorRoleId in kwargs then ToId(kwargs[SeniorRoleId]) else m.seniorRoleId,
      if HmodRoleId in kwargs then ToId(kwargs[HmodRoleId]) else m.hmodRoleId,
      if SmodRoleId in kwargs then ToId(kwargs[SmodRoleId]) else m.smodRoleId,
      if RmodRoleId in kwargs then ToId(kwargs[RmodRoleId]) else m.rmodRoleId,
      if TmodRoleId in kwargs then ToId(kwargs[TmodRoleId]) else m.tmodRoleId,
      if HelperRoleId in kwargs then ToId(kwargs[HelperRoleId]) else m.helperRoleId,
      if ActiveRoleId in kwargs then ToId(kwargs[ActiveRoleId]) else m.activeRoleId,
      if DomainBl in kwargs then ToTexts(kwargs[DomainBl]) else m.domainBl,
      if DomainWl in kwargs then ToTexts(kwargs[DomainWl]) else m.domainWl,
      if EventIgnoredRoleIds in kwargs then ToInts(kwargs[EventIgnoredRoleIds]) else m.eventIgnoredRoleIds,
      if AutomodIgnoredRoleIds in kwargs then ToInts(kwargs[AutomodIgnoredRoleIds]) else m.automodIgnoredRoleIds,
      if EventIgnoredChannelIds in kwargs then ToInts(kwargs[EventIgnoredChannelIds]) else m.eventIgnoredChannelIds,
      if AutomodIgnoredChannelIds in kwargs then ToInts(kwargs[AutomodIgnoredChannelIds]) else m.automodIgnoredChannelIds,
      if Activity in kwargs then ToText(kwargs[Activity]) else m.activity,
      if Greeting in kwargs then ToText(kwargs[Greeting]) else m.greeting,
      if AppealUrl in kwargs then ToText(kwargs[AppealUrl]) else m.appealUrl)
  }

  /** The named fields take the given values and every other field keeps its value. */
  lemma {:induction false} ApplyChangesExactlyNamed(m: MetaData, kwargs: map<Field, Value>)
    requires forall f | f in kwargs :: WellTyped(f, kwargs[f])
    ensures forall f :: Get(Apply(m, kwargs), f) == if f in kwargs then kwargs[f] else Get(m, f)
  {
    forall f
      ensures Get(Apply(m, kwargs), f) == if f in kwargs then kwargs[f] else Get(m, f)
    {
      if f in kwargs {
        assert WellTyped(f, kwargs[f]);
      }
    }
  }

  /** An update naming no field leaves the record as it was. */
  lemma {:induction false} ApplyNothing(m: MetaData)
    ensures Apply(m, map[]) == m
  {
    ApplyChangesExactlyNamed(m, map[]);
    GetDetermines(Apply(m, map[]), m);
  }

  /** Repeating the same update changes nothing further. */
  lemma {:induction false} ApplyIdempotent(m: MetaData, kwargs: map<Field, Value>)
    requires forall f | f in kwargs :: WellTyped(f, kwargs[f])
    ensures Apply(Apply(m, kwargs), kwargs) == Apply(m, kwargs)
  {
    ApplyChangesExactlyNamed(m, kwargs);
    ApplyChangesExactlyNamed(Apply(m, kwargs), kwargs);
    GetDetermines(Apply(Apply(m, kwargs), kwargs), Apply(m, kwargs));
  }

  /** The largest `case_id` stored in a non-empty modlogs collection. */
  function MaxCaseId(docs: seq<Modlog>): (top: int)
    requires docs != []
    ensures exists i | 0 <= i < |docs| :: docs[i].caseId == top
    ensures forall i | 0 <= i < |docs| :: docs[i].caseId <= top
  {
    if |docs| == 1 then docs[0].caseId
    else
      var rest := MaxCaseId(docs[1..]);
      assert forall i | 1 <= i < |docs| :: docs[i] == docs[1..][i - 1];
      if docs[0].caseId >= rest then docs[0].caseId else rest
  }

  /**
   * `generate_modlog_id`: one more than the `case_id` of the document that
   * sorts first by `case_id` descending, or 1 for an empty collection.
   */
  function NextCaseId(docs: seq<Modlog>): (id: int)
    ensures docs == [] ==> id == 1
    ensures forall i | 0 <= i < |docs| :: docs[i].caseId < id
    ensures docs != [] ==> exists i | 0 <= i < |docs| :: docs[i].caseId == id - 1
  {
    if docs == [] then 1 else MaxCaseId(docs) + 1
  }

  /** Allocating an id and storing a case under it makes the next allocation one larger. */
  lemma {:induction false} NextAfterInsert(docs: seq<Modlog>, c: Modlog)
    requires c.caseId == NextCaseId(docs)
    ensures NextCaseId(docs + [c]) == NextCaseId(docs) + 1
  {
    var all := docs + [c];
    var next := NextCaseId(all);
    assert all[|docs|] == c;
  }

  /**
   * The ids handed out by `n` rounds of allocate-then-insert, starting from
   * `docs`; each round stores `template` under the id it was given.
   */
  function AllocationRun(docs: seq<Modlog>, template: Modlog, n: nat): (ids: seq<int>)
    ensures |ids| == n
    decreases n
  {
    if n == 0 then []
    else
      var id := NextCaseId(docs);
      [id] + AllocationRun(docs + [template.(caseId := id)], template, n - 1)
  }

  /** Sequential rounds hand out consecutive ids, starting at the first free one. */
  lemma {:induction false} AllocationRunConsecutive(docs: seq<Modlog>, template: Modlog, n: nat)
    ensures forall k | 0 <= k < n :: AllocationRun(docs, template, n)[k] == NextCaseId(docs) + k
    decreases n
  {
    if n > 0 {
      var id := NextCaseId(docs);
      var docs' := docs + [template.(caseId := id)];
      NextAfterInsert(docs, template.(caseId := id));
      AllocationRunConsecutive(docs', template, n - 1);
    }
  }

  /** From an empty collection, n rounds give exactly the ids 1..n, in order, with no gap or repeat. */
  lemma {:induction false} AllocationFromEmpty(template: Modlog, n: nat)
    ensures AllocationRun([], template, n) == seq(n, k => k + 1)
  {
    AllocationRunConsecutive([], template, n);
  }

  /**
   * Stands only for the `metadata` attribute of the bot (core/bot.py:65),
   * the in-process configuration cache that `update_metadata` replaces; the
   * rest of the bot is not part of this model.
   */
  class CustomBot {
    var metadata: Option<MetaData>

    constructor ()
      ensures metadata == None
    {
      metadata := None;
    }
  }

  /**
   * The client with the two collections it uses: `metadata` and `modlogs`.
   * Connecting, sessions and the fatal start-up paths are not part of this model.
   */
  class MongoDBClient {
    const bot: CustomBot
    var metadataDocs: seq<MetaDataDoc>
    var modlogs: seq<Modlog>

    constructor (bot: CustomBot, metadataDocs: seq<MetaDataDoc>, modlogs: seq<Modlog>)
      ensures this.bot == bot && this.metadataDocs == metadataDocs && this.modlogs == modlogs
    {
      this.bot := bot;
      this.metadataDocs := metadataDocs;
      this.modlogs := modlogs;
    }

    /**
     * `get_metadata`: the first metadata document without its `_id`; when the
     * collection is empty, inserts the all-unset defaults (the store assigns
     * `oid`) and returns them.
     */
    method GetMetadata(oid: int) returns (m: MetaData)
      modifies this`metadataDocs
      ensures old(metadataDocs) == [] ==> metadataDocs == [MetaDataDoc(oid, Defaults())] && m == Defaults()
      ensures old(metadataDocs) != [] ==> metadataDocs == old(metadataDocs) && m == metadataDocs[0].meta
    {
      if metadataDocs == [] {
        metadataDocs := metadataDocs + [MetaDataDoc(oid, Defaults())];
        m := Defaults();
      } else {
        m := metadataDocs[0].meta;
      }
    }

    /**
     * `update_metadata(**kwargs)`: `$set` the named fields on the first
     * document, then replace `bot.metadata` with the whole updated record.
     * With no document, `find_one_and_update` yields None and the source
     * raises AttributeError: `ok` is false and nothing has changed.
     */
    method UpdateMetadata(kwargs: map<Field, Value>) returns (ok: bool)
      requires forall f | f in kwargs :: WellTyped(f, kwargs[f])
      modifies this`metadataDocs, bot`metadata
      ensures ok <==> old(metadataDocs) != []
      ensures ok ==> |metadataDocs| == |old(metadataDocs)|
                     && metadataDocs[1..] == old(metadataDocs)[1..]
                     && metadataDocs[0] == MetaDataDoc(old(metadataDocs)[0].oid, Apply(old(metadataDocs)[0].meta, kwargs))
                     && bot.metadata == Some(metadataDocs[0].meta)
      ensures !ok ==> metadataDocs == old(metadataDocs) && bot.metadata == old(bot.metadata)
    {
      if metadataDocs == [] {
        ok := false;
      } else {
        var doc := metadataDocs[0];
        var updated := MetaDataDoc(doc.oid, Apply(doc.meta, kwargs));
        metadataDocs := metadataDocs[0 := updated];
        bot.metadata := Some(updated.meta);
        ok := true;
      }
    }

    /** `generate_modlog_id`: reads the modlogs collection and changes nothing. */
    method GenerateModlogId() returns (id: int)
      ensures modlogs == [] ==> id == 1
      ensures forall i | 0 <= i < |modlogs| :: modlogs[i].caseId < id
      ensures modlogs != [] ==> exists i | 0 <= i < |modlogs| :: modlogs[i].caseId == id - 1
    {
      id := NextCaseId(modlogs);
    }
  }

  /** A second `get_metadata` never inserts again and returns what the first returned. */
  method GetMetadataTwice(client: MongoDBClient, oid: int, oid2: int) returns (first: MetaData, second: MetaData)
    modifies client`metadataDocs
    ensures first == second
    ensures client.metadataDocs == if old(client.metadataDocs) == [] then [MetaDataDoc(oid, Defaults())] else old(client.metadataDocs)
  {
    first := client.GetMetadata(oid);
    second := client.GetMetadata(oid2);
  }
}
