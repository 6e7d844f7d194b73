/**
 * Entities (named concepts of a session) and their links to the documents
 * that explain them. The session runs with autoflush off, so a query sees
 * the links added earlier in the same call only after a flush; a flush
 * happens whenever a new entity is created and once at the end.
 */
module EntityService {
  import opened Wrappers
  import opened Store

  const ExplainsLink := "explains"
  const ActiveStatus := "active"

  // ---------------------------------------------------------------------
  // Queries
  // ---------------------------------------------------------------------

  /** The position of the session's entity with this name (the unique constraint allows one at most). */
  function FindEntity(es: seq<EntityRow>, sessionId: string, name: string): (r: Option<nat>)
    ensures r.Some? ==> r.value < |es| && es[r.value].sessionId == sessionId && es[r.value].name == name
    ensures r.None? ==> forall i | 0 <= i < |es| :: !(es[i].sessionId == sessionId && es[i].name == name)
  {
    if es == [] then None
    else if es[|es| - 1].sessionId == sessionId && es[|es| - 1].name == name then Some(|es| - 1)
    else FindEntity(es[..|es| - 1], sessionId, name)
  }

  predicate IsLink(l: LinkRow, entityId: int, documentId: int) {
    l.entityId == entityId && l.documentId == documentId && l.linkType == ExplainsLink
  }

  /** An "explains" link from the entity to the document is stored. */
  predicate HasLink(ls: seq<LinkRow>, entityId: int, documentId: int) {
    exists i | 0 <= i < |ls| :: IsLink(ls[i], entityId, documentId)
  }

  /** The join of `find_entity_document` holds for this link and this entity. */
  predicate JoinHit(l: LinkRow, e: EntityRow, sessionId: string, name: string) {
    e.id == l.entityId && e.sessionId == sessionId && e.name == name && e.status == ActiveStatus && l.linkType == ExplainsLink
  }

  /**
   * `find_entity_document`: the document of an "explains" link of the
   * session's active entity with this name. The query has no order; the
   * model takes the first such link.
   */
  function FindEntityDocument(links: seq<LinkRow>, es: seq<EntityRow>, sessionId: string, name: string): (r: Option<int>)
    ensures r.Some? ==> exists i, j | 0 <= i < |links| && 0 <= j < |es| :: JoinHit(links[i], es[j], sessionId, name) && links[i].documentId == r.value
    ensures r.None? ==> forall i, j | 0 <= i < |links| && 0 <= j < |es| :: !JoinHit(links[i], es[j], sessionId, name)
  {
    if links == [] then None
    else if exists j | 0 <= j < |es| :: JoinHit(links[0], es[j], sessionId, name) then Some(links[0].documentId)
    else
      var r := FindEntityDocument(links[1..], es, sessionId, name);
      assert forall i | 1 <= i < |links| :: links[1..][i - 1] == links[i];
      r
  }

  // ---------------------------------------------------------------------
  // upsert_entities
  // ---------------------------------------------------------------------

  /** A flush: the pending links are inserted, or the unique link constraint fails and the call raises. */
  function Flush(t: Tables, pending: seq<LinkRow>): Option<Tables> {
    if LinksOk(t.links + pending) then Some(t.(links := t.links + pending)) else None
  }

  /** Lines 58-73: a link is queued unless a stored (flushed) one exists. */
  function Queue(links: seq<LinkRow>, pending: seq<LinkRow>, entityId: int, documentId: int): seq<LinkRow> {
    if HasLink(links, entityId, documentId) then pending
    else pending + [LinkRow(entityId, documentId, ExplainsLink, 1.0)]
  }

  /** One pass of the loop: find or create (and flush) the entity, then queue its link. */
  function Step(t: Tables, pending: seq<LinkRow>, sessionId: string, name: string, documentId: int, entityType: string)
    : Option<(Tables, seq<LinkRow>)>
  {
    match FindEntity(t.entities, sessionId, name)
    case Some(i) => Some((t, Queue(t.links, pending, t.entities[i].id, documentId)))
    case None =>
      var e := EntityRow(t.nextEntityId, name, sessionId, entityType, ActiveStatus);
      match Flush(t.(entities := t.entities + [e], nextEntityId := t.nextEntityId + 1), pending)
      case None => None
      case Some(t') => Some((t', Queue(t'.links, [], e.id, documentId)))
  }

  /** The loop from position `i` on with these pending links, then the final flush. */
  function UpsertFrom(t: Tables, pending: seq<LinkRow>, sessionId: string, names: seq<string>, i: nat, documentId: int, entityType: string)
    : Option<Tables>
    requires i <= |names|
    decreases |names| - i
  {
    if i == |names| then Flush(t, pending)
    else
      match Step(t, pending, sessionId, names[i], documentId, entityType)
      case None => None
      case Some((t', pending')) => UpsertFrom(t', pending', sessionId, names, i + 1, documentId, entityType)
  }

  /** The tables after `upsert_entities`, or `None` when a flush raises an integrity error. */
  function Upserted(t: Tables, sessionId: string, names: seq<string>, documentId: int, entityType: string): Option<Tables> {
    UpsertFrom(t, [], sessionId, names, 0, documentId, entityType)
  }

  /** `upsert_entities`; a raised integrity error rolls the store back. */
  method UpsertEntities(db: Db, sessionId: string, names: seq<string>, documentId: int, entityType: string) returns (ok: bool)
    modifies db
    ensures ok <==> Upserted(old(db.Snapshot()), sessionId, names, documentId, entityType).Some?
    ensures ok ==> db.Snapshot() == Upserted(old(db.Snapshot()), sessionId, names, documentId, entityType).value
    ensures !ok ==> db.Snapshot() == old(db.Snapshot())
  {
    var start := db.Snapshot();
    var pending: seq<LinkRow> := [];
    var i := 0;
    while i < |names|
      invariant 0 <= i <= |names|
      invariant UpsertFrom(db.Snapshot(), pending, sessionId, names, i, documentId, entityType)
             == Upserted(start, sessionId, names, documentId, entityType)
    {
      ghost var before, pending0 := db.Snapshot(), pending;
      var stepped;
      stepped, pending := UpsertStep(db, pending, sessionId, names[i], documentId, entityType);
      if !stepped {
        db.Restore(start);
        return false;
      }
      assert UpsertFrom(before, pending0, sessionId, names, i, documentId, entityType)
          == UpsertFrom(db.Snapshot(), pending, sessionId, names, i + 1, documentId, entityType);
      i := i + 1;
    }
    if !LinksOk(db.links + pending) {
      db.Restore(start);
      return false;
    }
    db.links := db.links + pending;
    ok := true;
  }

  /**
   * One pass of the loop: the entity is found, or added and the session
   * flushed; then its link is queued. When the flush raises, the new entity
   * is still in the session, unflushed.
   */
  method UpsertStep(db: Db, pending: seq<LinkRow>, sessionId: string, name: string, documentId: int, entityType: string)
    returns (ok: bool, pending': seq<LinkRow>)
    modifies db
    ensures ok <==> Step(old(db.Snapshot()), pending, sessionId, name, documentId, entityType).Some?
    ensures ok ==> (db.Snapshot(), pending') == Step(old(db.Snapshot()), pending, sessionId, name, documentId, entityType).value
    ensures !ok ==> db.Snapshot() == old(db.Snapshot()).(
      entities := old(db.entities) + [EntityRow(old(db.nextEntityId), name, sessionId, entityType, ActiveStatus)],
      nextEntityId := old(db.nextEntityId) + 1)
  {
    ghost var before := db.Snapshot();
    var found := FindEntity(db.entities, sessionId, name);
    var entityId;
    pending' := pending;
    if found.None? {
      entityId := db.nextEntityId;
      ghost var created := before.(entities := before.entities + [EntityRow(entityId, name, sessionId, entityType, ActiveStatus)],
                                   nextEntityId := entityId + 1);
      db.entities := db.entities + [EntityRow(entityId, name, sessionId, entityType, ActiveStatus)];
      db.nextEntityId := entityId + 1;
      assert db.Snapshot() == created;
      if !LinksOk(db.links + pending) {
        assert Flush(created, pending).None?;
        return false, pending;
      }
      db.links := db.links + pending;
      pending' := [];
      assert db.Snapshot() == Flush(created, pending).value;
    } else {
      entityId := db.entities[found.value].id;
    }
    ghost var flushed := db.Snapshot();
    ghost var pending1 := pending';
    if !HasLink(db.links, entityId, documentId) {
      pending' := pending' + [LinkRow(entityId, documentId, ExplainsLink, 1.0)];
    }
    assert pending' == Queue(flushed.links, pending1, entityId, documentId);
    ok := true;
  }

  // ---------------------------------------------------------------------
  // Facts
  // ---------------------------------------------------------------------

  lemma FindEntityAppend(es: seq<EntityRow>, e: EntityRow, sessionId: string, name: string)
    ensures FindEntity(es + [e], sessionId, name)
         == if e.sessionId == sessionId && e.name == name then Some(|es|) else FindEntity(es, sessionId, name)
  {
    assert (es + [e])[..|es|] == es;
  }

  lemma HasLinkAppend(a: seq<LinkRow>, b: seq<LinkRow>, entityId: int, documentId: int)
    ensures HasLink(a + b, entityId, documentId) <==> HasLink(a, entityId, documentId) || HasLink(b, entityId, documentId)
  {
    if HasLink(b, entityId, documentId) {
      var i :| 0 <= i < |b| && IsLink(b[i], entityId, documentId);
      assert (a + b)[|a| + i] == b[i];
    }
    if HasLink(a, entityId, documentId) {
      var i :| 0 <= i < |a| && IsLink(a[i], entityId, documentId);
      assert (a + b)[i] == a[i];
    }
    if HasLink(a + b, entityId, documentId) {
      var i :| 0 <= i < |a + b| && IsLink((a + b)[i], entityId, documentId);
      if i >= |a| {
        assert (a + b)[i] == b[i - |a|];
      } else {
        assert (a + b)[i] == a[i];
      }
    }
  }

  /** What the loop keeps: the stored tables are valid and every queued link points at a created entity. */
  predicate LoopOk(t: Tables, pending: seq<LinkRow>) {
    TablesOk(t) && LinkTargetsOk(pending, t.nextEntityId)
  }

  lemma StepOk(t: Tables, pending: seq<LinkRow>, sessionId: string, name: string, documentId: int, entityType: string)
    requires LoopOk(t, pending)
    requires Step(t, pending, sessionId, name, documentId, entityType).Some?
    ensures var (t', pending') := Step(t, pending, sessionId, name, documentId, entityType).value;
      && LoopOk(t', pending')
      && t.entities <= t'.entities
      && t.links + pending <= t'.links + pending'
      && t.links <= t'.links
      && t' == t.(entities := t'.entities, nextEntityId := t'.nextEntityId, links := t'.links)
  {
    var (t', pending') := Step(t, pending, sessionId, name, documentId, entityType).value;
    match FindEntity(t.entities, sessionId, name)
    case Some(i) =>
    case None =>
      var e := EntityRow(t.nextEntityId, name, sessionId, entityType, ActiveStatus);
      assert t'.entities == t.entities + [e];
      assert EntitiesOk(t'.entities, t'.nextEntityId);
      assert t'.links == t.links + pending;
      assert LinkTargetsOk(t'.links, t'.nextEntityId) by {
        forall k | 0 <= k < |t'.links|
          ensures t'.links[k].entityId < t'.nextEntityId
        {
          if k >= |t.links| {
            assert t'.links[k] == pending[k - |t.links|];
          }
        }
      }
  }

  lemma HasLinkPrefix(a: seq<LinkRow>, b: seq<LinkRow>, entityId: int, documentId: int)
    requires a <= b && HasLink(a, entityId, documentId)
    ensures HasLink(b, entityId, documentId)
  {
    var i :| 0 <= i < |a| && IsLink(a[i], entityId, documentId);
    assert b[i] == a[i];
  }

  /** The loop keeps the table invariants, and a successful call only appends entities and links. */
  lemma {:induction false} UpsertFromOk(t: Tables, pending: seq<LinkRow>, sessionId: string, names: seq<string>, i: nat, documentId: int, entityType: string)
    requires i <= |names| && LoopOk(t, pending)
    requires UpsertFrom(t, pending, sessionId, names, i, documentId, entityType).Some?
    ensures var r := UpsertFrom(t, pending, sessionId, names, i, documentId, entityType).value;
      && TablesOk(r)
      && t.entities <= r.entities
      && t.links + pending <= r.links
      && r == t.(entities := r.entities, nextEntityId := r.nextEntityId, links := r.links)
    decreases |names| - i
  {
    if i == |names| {
      var r := t.(links := t.links + pending);
      assert LinkTargetsOk(r.links, r.nextEntityId) by {
        forall k | 0 <= k < |r.links|
          ensures r.links[k].entityId < r.nextEntityId
        {
          if k >= |t.links| {
            assert r.links[k] == pending[k - |t.links|];
          }
        }
      }
    } else {
      var (t', pending') := Step(t, pending, sessionId, names[i], documentId, entityType).value;
      StepOk(t, pending, sessionId, names[i], documentId, entityType);
      UpsertFromOk(t', pending', sessionId, names, i + 1, documentId, entityType);
    }
  }

  /**
   * A successful `upsert_entities` keeps every table invariant (one entity
   * per session and name, one link per key) and only appends to the entity
   * and link tables; nothing else changes.
   */
  lemma UpsertedOk(t: Tables, sessionId: string, names: seq<string>, documentId: int, entityType: string)
    requires TablesOk(t)
    requires Upserted(t, sessionId, names, documentId, entityType).Some?
    ensures var r := Upserted(t, sessionId, names, documentId, entityType).value;
      && TablesOk(r)
      && t.entities <= r.entities
      && t.links <= r.links
      && r == t.(entities := r.entities, nextEntityId := r.nextEntityId, links := r.links)
  {
    assert t.links + [] == t.links;
    UpsertFromOk(t, [], sessionId, names, 0, documentId, entityType);
  }

  /** The name has its entity, and its link is stored or queued. */
  predicate Covered(t: Tables, pending: seq<LinkRow>, sessionId: string, name: string, documentId: int) {
    var f := FindEntity(t.entities, sessionId, name);
    f.Some? && HasLink(t.links + pending, t.entities[f.value].id, documentId)
  }

  lemma StepCovers(t: Tables, pending: seq<LinkRow>, sessionId: string, name: string, documentId: int, entityType: string,
                   t': Tables, pending': seq<LinkRow>, other: string)
    requires LoopOk(t, pending)
    requires Step(t, pending, sessionId, name, documentId, entityType) == Some((t', pending'))
    ensures Covered(t', pending', sessionId, name, documentId)
    ensures Covered(t, pending, sessionId, other, documentId) ==> Covered(t', pending', sessionId, other, documentId)
  {
    StepOk(t, pending, sessionId, name, documentId, entityType);
    match FindEntity(t.entities, sessionId, name)
    case Some(i) =>
      var id := t.entities[i].id;
      HasLinkAppend(t.links, pending', id, documentId);
      if !HasLink(t.links, id, documentId) {
        assert IsLink(pending'[|pending'| - 1], id, documentId);
      }
      if Covered(t, pending, sessionId, other, documentId) {
        var j := FindEntity(t.entities, sessionId, other).value;
        HasLinkPrefix(t.links + pending, t'.links + pending', t.entities[j].id, documentId);
      }
    case None =>
      var e := EntityRow(t.nextEntityId, name, sessionId, entityType, ActiveStatus);
      FindEntityAppend(t.entities, e, sessionId, name);
      HasLinkAppend(t'.links, pending', e.id, documentId);
      if !HasLink(t'.links, e.id, documentId) {
        assert IsLink(pending'[|pending'| - 1], e.id, documentId);
      }
      if Covered(t, pending, sessionId, other, documentId) {
        FindEntityAppend(t.entities, e, sessionId, other);
        var j := FindEntity(t.entities, sessionId, other).value;
        HasLinkPrefix(t.links + pending, t'.links + pending', t.entities[j].id, documentId);
      }
  }

  lemma StepCoversPrefix(t: Tables, pending: seq<LinkRow>, sessionId: string, names: seq<string>, i: nat, documentId: int, entityType: string,
                         t': Tables, pending': seq<LinkRow>)
    requires i < |names| && LoopOk(t, pending)
    requires forall k | 0 <= k < i :: Covered(t, pending, sessionId, names[k], documentId)
    requires Step(t, pending, sessionId, names[i], documentId, entityType) == Some((t', pending'))
    ensures forall k | 0 <= k < i + 1 :: Covered(t', pending', sessionId, names[k], documentId)
  {
    forall k | 0 <= k < i + 1
      ensures Covered(t', pending', sessionId, names[k], documentId)
    {
      if k < i {
        assert Covered(t, pending, sessionId, names[k], documentId);
        StepCovers(t, pending, sessionId, names[i], documentId, entityType, t', pending', names[k]);
      } else {
        StepCovers(t, pending, sessionId, names[i], documentId, entityType, t', pending', names[i]);
      }
    }
  }

  lemma {:induction false} UpsertFromCovers(t: Tables, pending: seq<LinkRow>, sessionId: string, names: seq<string>, i: nat, documentId: int, entityType: string)
    requires i <= |names| && LoopOk(t, pending)
    requires forall k | 0 <= k < i :: Covered(t, pending, sessionId, names[k], documentId)
    requires UpsertFrom(t, pending, sessionId, names, i, documentId, entityType).Some?
    ensures var r := UpsertFrom(t, pending, sessionId, names, i, documentId, entityType).value;
      forall k | 0 <= k < |names| :: Covered(r, [], sessionId, names[k], documentId)
    decreases |names| - i
  {
    if i == |names| {
      var r := t.(links := t.links + pending);
      assert r.links + [] == t.links + pending;
    } else {
      var (t', pending') := Step(t, pending, sessionId, names[i], documentId, entityType).value;
      StepOk(t, pending, sessionId, names[i], documentId, entityType);
      StepCoversPrefix(t, pending, sessionId, names, i, documentId, entityType, t', pending');
      UpsertFromCovers(t', pending', sessionId, names, i + 1, documentId, entityType);
    }
  }

  /** After a successful call every name has its entity in the session and an "explains" link to the document. */
  lemma UpsertedLinksEveryName(t: Tables, sessionId: string, names: seq<string>, documentId: int, entityType: string)
    requires TablesOk(t)
    requires Upserted(t, sessionId, names, documentId, entityType).Some?
    ensures var r := Upserted(t, sessionId, names, documentId, entityType).value;
      forall k | 0 <= k < |names| ::
        FindEntity(r.entities, sessionId, names[k]).Some?
        && HasLink(r.links, r.entities[FindEntity(r.entities, sessionId, names[k]).value].id, documentId)
  {
    var r := Upserted(t, sessionId, names, documentId, entityType).value;
    UpsertFromCovers(t, [], sessionId, names, 0, documentId, entityType);
    assert r.links + [] == r.links;
  }

  lemma {:induction false} UpsertFromCoveredNoop(t: Tables, sessionId: string, names: seq<string>, i: nat, documentId: int, entityType: string)
    requires i <= |names| && LinksOk(t.links)
    requires forall k | i <= k < |names| :: Covered(t, [], sessionId, names[k], documentId)
    ensures UpsertFrom(t, [], sessionId, names, i, documentId, entityType) == Some(t)
    decreases |names| - i
  {
    assert t.links + [] == t.links;
    if i < |names| {
      assert Covered(t, [], sessionId, names[i], documentId);
      UpsertFromCoveredNoop(t, sessionId, names, i + 1, documentId, entityType);
    }
  }

  /** `upsert_entities` is idempotent: repeating a successful call succeeds and changes nothing. */
  lemma UpsertIdempotent(t: Tables, sessionId: string, names: seq<string>, documentId: int, entityType: string)
    requires TablesOk(t)
    requires Upserted(t, sessionId, names, documentId, entityType).Some?
    ensures var r := Upserted(t, sessionId, names, documentId, entityType).value;
      Upserted(r, sessionId, names, documentId, entityType) == Some(r)
  {
    var r := Upserted(t, sessionId, names, documentId, entityType).value;
    UpsertedOk(t, sessionId, names, documentId, entityType);
    UpsertFromCovers(t, [], sessionId, names, 0, documentId, entityType);
    UpsertFromCoveredNoop(r, sessionId, names, 0, documentId, entityType);
  }

  /**
   * After a successful call, a name whose entity is active resolves through
   * `find_entity_document` to some document.
   */
  lemma UpsertThenFind(t: Tables, sessionId: string, names: seq<string>, documentId: int, entityType: string, k: nat)
    requires TablesOk(t) && k < |names|
    requires Upserted(t, sessionId, names, documentId, entityType).Some?
    requires var r := Upserted(t, sessionId, names, documentId, entityType).value;
      var f := FindEntity(r.entities, sessionId, names[k]);
      f.Some? && r.entities[f.value].status == ActiveStatus
    ensures var r := Upserted(t, sessionId, names, documentId, entityType).value;
      FindEntityDocument(r.links, r.entities, sessionId, names[k]).Some?
  {
    var r := Upserted(t, sessionId, names, documentId, entityType).value;
    UpsertedLinksEveryName(t, sessionId, names, documentId, entityType);
    var j := FindEntity(r.entities, sessionId, names[k]).value;
    var i :| 0 <= i < |r.links| && IsLink(r.links[i], r.entities[j].id, documentId);
    assert JoinHit(r.links[i], r.entities[j], sessionId, names[k]);
  }

  /**
   * With autoflush off, the same name twice in one call queues its link
   * twice when the link is not stored yet and no flush happens between
   * the two, and the final flush then breaks the unique link constraint.
   */
  lemma RepeatedNameWithoutLinkFails(t: Tables, sessionId: string, name: string, documentId: int, entityType: string)
    requires TablesOk(t)
    requires var f := FindEntity(t.entities, sessionId, name);
      f.Some? ==> !HasLink(t.links, t.entities[f.value].id, documentId)
    ensures Upserted(t, sessionId, [name, name], documentId, entityType).None?
  {
    var names := [name, name];
    match FindEntity(t.entities, sessionId, name)
    case Some(j) =>
      var id := t.entities[j].id;
      var p := [LinkRow(id, documentId, ExplainsLink, 1.0)];
      assert [] + p == p;
      assert Queue(t.links, [], id, documentId) == p;
      assert Step(t, [], sessionId, name, documentId, entityType) == Some((t, p));
      assert Step(t, p, sessionId, name, documentId, entityType) == Some((t, p + p));
      var ls := t.links + (p + p);
      assert ls[|t.links|] == ls[|t.links| + 1];
      assert !LinksOk(ls);
      assert UpsertFrom(t, p + p, sessionId, names, 2, documentId, entityType).None?;
      assert UpsertFrom(t, p, sessionId, names, 1, documentId, entityType).None?;
    case None =>
      var e := EntityRow(t.nextEntityId, name, sessionId, entityType, ActiveStatus);
      var t1 := t.(entities := t.entities + [e], nextEntityId := t.nextEntityId + 1);
      assert t1.links + [] == t.links;
      assert Flush(t1, []) == Some(t1);
      assert !HasLink(t1.links, e.id, documentId);
      var p := [LinkRow(e.id, documentId, ExplainsLink, 1.0)];
      assert [] + p == p;
      assert Queue(t1.links, [], e.id, documentId) == p;
      assert Step(t, [], sessionId, name, documentId, entityType) == Some((t1, p));
      FindEntityAppend(t.entities, e, sessionId, name);
      assert Step(t1, p, sessionId, name, documentId, entityType) == Some((t1, p + p));
      var ls := t1.links + (p + p);
      assert ls[|t1.links|] == ls[|t1.links| + 1];
      assert !LinksOk(ls);
      assert UpsertFrom(t1, p + p, sessionId, names, 2, documentId, entityType).None?;
      assert UpsertFrom(t1, p, sessionId, names, 1, documentId, entityType).None?;
  }

  predicate DistinctNames(names: seq<string>) {
    forall a, b | 0 <= a < b < |names| :: names[a] != names[b]
  }

  /** The queued links break no constraint, and none of them belongs to a name still to come. */
  predicate PendingApart(t: Tables, pending: seq<LinkRow>, sessionId: string, names: seq<string>, i: nat) {
    && LinksOk(t.links + pending)
    && forall q, k | 0 <= q < |pending| && i <= k < |names| && FindEntity(t.entities, sessionId, names[k]).Some? ::
         t.entities[FindEntity(t.entities, sessionId, names[k]).value].id != pending[q].entityId
  }

  lemma LinksOkAppend(ls: seq<LinkRow>, l: LinkRow)
    requires LinksOk(ls)
    requires forall x | 0 <= x < |ls| :: !SameLinkKey(ls[x], l)
    ensures LinksOk(ls + [l])
  {
    forall a, b | 0 <= a < b < |ls + [l]|
      ensures !SameLinkKey((ls + [l])[a], (ls + [l])[b])
    {
      if b == |ls| {
        assert (ls + [l])[a] == ls[a];
      } else {
        assert (ls + [l])[a] == ls[a] && (ls + [l])[b] == ls[b];
      }
    }
  }

  lemma DistinctStep(t: Tables, pending: seq<LinkRow>, sessionId: string, names: seq<string>, i: nat, documentId: int, entityType: string)
    requires i < |names| && LoopOk(t, pending) && DistinctNames(names)
    requires PendingApart(t, pending, sessionId, names, i)
    ensures Step(t, pending, sessionId, names[i], documentId, entityType).Some?
    ensures var (t', pending') := Step(t, pending, sessionId, names[i], documentId, entityType).value;
      PendingApart(t', pending', sessionId, names, i + 1)
  {
    match FindEntity(t.entities, sessionId, names[i])
    case Some(j) =>
      DistinctStepFound(t, pending, sessionId, names, i, documentId, j);
    case None =>
      var e := EntityRow(t.nextEntityId, names[i], sessionId, entityType, ActiveStatus);
      var t1 := t.(entities := t.entities + [e], nextEntityId := t.nextEntityId + 1);
      assert Flush(t1, pending).Some?;
      DistinctStepNew(t, pending, sessionId, names, i, documentId, e, Flush(t1, pending).value);
  }

  lemma DistinctStepFound(t: Tables, pending: seq<LinkRow>, sessionId: string, names: seq<string>, i: nat, documentId: int, j: nat)
    requires i < |names| && LoopOk(t, pending) && DistinctNames(names)
    requires PendingApart(t, pending, sessionId, names, i)
    requires FindEntity(t.entities, sessionId, names[i]) == Some(j)
    ensures PendingApart(t, Queue(t.links, pending, t.entities[j].id, documentId), sessionId, names, i + 1)
  {
    var id := t.entities[j].id;
    var pending' := Queue(t.links, pending, id, documentId);
    if !HasLink(t.links, id, documentId) {
      var l := LinkRow(id, documentId, ExplainsLink, 1.0);
      forall x | 0 <= x < |t.links + pending|
        ensures !SameLinkKey((t.links + pending)[x], l)
      {
        if x >= |t.links| {
          assert (t.links + pending)[x] == pending[x - |t.links|];
        } else {
          assert (t.links + pending)[x] == t.links[x];
        }
      }
      LinksOkAppend(t.links + pending, l);
      assert t.links + pending' == (t.links + pending) + [l];
      forall q, k | 0 <= q < |pending'| && i + 1 <= k < |names| && FindEntity(t.entities, sessionId, names[k]).Some?
        ensures t.entities[FindEntity(t.entities, sessionId, names[k]).value].id != pending'[q].entityId
      {
        if q < |pending| {
          assert pending'[q] == pending[q];
        } else {
          var j' := FindEntity(t.entities, sessionId, names[k]).value;
          assert names[i] != names[k];
          assert j' != j;
        }
      }
    }
  }

  lemma DistinctStepNew(t: Tables, pending: seq<LinkRow>, sessionId: string, names: seq<string>, i: nat, documentId: int, e: EntityRow, t2: Tables)
    requires i < |names| && LoopOk(t, pending) && DistinctNames(names)
    requires e == EntityRow(t.nextEntityId, names[i], sessionId, e.entityType, ActiveStatus)
    requires t2.entities == t.entities + [e] && t2.links == t.links + pending
    requires LinksOk(t2.links)
    ensures PendingApart(t2, Queue(t2.links, [], e.id, documentId), sessionId, names, i + 1)
  {
    var pending' := Queue(t2.links, [], e.id, documentId);
    assert t2.links + [] == t2.links;
    if !HasLink(t2.links, e.id, documentId) {
      var l := LinkRow(e.id, documentId, ExplainsLink, 1.0);
      LinksOkAppend(t2.links, l);
      assert pending' == [l];
    }
    forall q, k | 0 <= q < |pending'| && i + 1 <= k < |names| && FindEntity(t2.entities, sessionId, names[k]).Some?
      ensures t2.entities[FindEntity(t2.entities, sessionId, names[k]).value].id != pending'[q].entityId
    {
      FindEntityAppend(t.entities, e, sessionId, names[k]);
      assert names[i] != names[k];
      var j' := FindEntity(t.entities, sessionId, names[k]).value;
      assert t2.entities[j'] == t.entities[j'];
    }
  }

  lemma {:induction false} DistinctFrom(t: Tables, pending: seq<LinkRow>, sessionId: string, names: seq<string>, i: nat, documentId: int, entityType: string)
    requires i <= |names| && LoopOk(t, pending) && DistinctNames(names)
    requires PendingApart(t, pending, sessionId, names, i)
    ensures UpsertFrom(t, pending, sessionId, names, i, documentId, entityType).Some?
    decreases |names| - i
  {
    if i < |names| {
      DistinctStep(t, pending, sessionId, names, i, documentId, entityType);
      var (t', pending') := Step(t, pending, sessionId, names[i], documentId, entityType).value;
      StepOk(t, pending, sessionId, names[i], documentId, entityType);
      DistinctFrom(t', pending', sessionId, names, i + 1, documentId, entityType);
    }
  }

  /** Without a repeated name the call cannot break the link constraint, so it always succeeds. */
  lemma DistinctNamesSucceed(t: Tables, sessionId: string, names: seq<string>, documentId: int, entityType: string)
    requires TablesOk(t) && DistinctNames(names)
    ensures Upserted(t, sessionId, names, documentId, entityType).Some?
  {
    assert t.links + [] == t.links;
    DistinctFrom(t, [], sessionId, names, 0, documentId, entityType);
  }
}
