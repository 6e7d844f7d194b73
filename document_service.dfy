/**
 * Documents, their version history and their follow-up questions: the
 * only writes to `documents.version` in the services are here, and each
 * one adds exactly one history row.
 */
module DocumentService {
  import opened Wrappers
  import opened Text
  import opened Json
  import opened Store

  /** The keyword arguments of `create_document`, as the values the caller passes. */
  datatype NewDocument = NewDocument(
    sessionId: string,
    userId: int,
    topic: Json,
    content: Json,
    categoryPath: Json,
    entities: Option<seq<Json>>,
    generationMetadata: Json,
    parentDocumentId: Json)

  // ---------------------------------------------------------------------
  // create_document / update_document
  // ---------------------------------------------------------------------

  /** The summary of every first version. */
  const InitialChangeSummary := "初始创建"

  /**
   * The first flush of `create_document`: every bound column must be
   * bindable, then `topic` and `content`, both `Mapped[str]`, must not be
   * None. The result is the stored topic and content.
   */
  function NewDocumentColumns(d: NewDocument): Result<(string, string)> {
    if !(Bindable(d.topic) && Bindable(d.content) && Bindable(d.categoryPath) && Bindable(d.parentDocumentId)) then Err(BindingError)
    else if d.topic.JNull? then Err(NotNullError("documents.topic"))
    else if d.content.JNull? then Err(NotNullError("documents.content"))
    else Ok((PyStr(d.topic), PyStr(d.content)))
  }

  /** The tables after `create_document`, and the new id; the error of the flush when it raises. */
  function Created(t: Tables, d: NewDocument): Result<(Tables, int)> {
    match NewDocumentColumns(d)
    case Err(e) => Err(e)
    case Ok((topic, content)) =>
      var id := t.nextDocumentId;
      var row := DocumentRow(d.sessionId, d.userId, topic, content, d.categoryPath,
                             if d.entities.Some? then d.entities.value else [], 1,
                             d.generationMetadata, d.parentDocumentId, None, None, t.clock, t.clock);
      Ok((t.(documents := t.documents[id := row], nextDocumentId := id + 1,
             versions := t.versions + [VersionRow(id, 1, content, Some(InitialChangeSummary), "created")],
             clock := t.clock + 1),
          id))
  }

  /** `create_document`; a failed flush changes nothing. */
  method CreateDocument(db: Db, d: NewDocument) returns (r: Result<int>)
    modifies db
    ensures Created(old(db.Snapshot()), d).Err? ==>
      r == Err(Created(old(db.Snapshot()), d).message) && db.Snapshot() == old(db.Snapshot())
    ensures Created(old(db.Snapshot()), d).Ok? ==> r.Ok? && (db.Snapshot(), r.value) == Created(old(db.Snapshot()), d).value
  {
    var columns := NewDocumentColumns(d);
    if columns.Err? {
      return Err(columns.message);
    }
    var (topic, content) := columns.value;
    var id := db.nextDocumentId;
    var row := DocumentRow(d.sessionId, d.userId, topic, content, d.categoryPath,
                           if d.entities.Some? then d.entities.value else [], 1,
                           d.generationMetadata, d.parentDocumentId, None, None, db.clock, db.clock);
    db.documents := db.documents[id := row];
    db.nextDocumentId := id + 1;
    db.versions := db.versions + [VersionRow(id, 1, content, Some(InitialChangeSummary), "created")];
    db.clock := db.clock + 1;
    r := Ok(id);
  }

  /**
   * The flush of `update_document`: the document's `content` (`Mapped[str]`)
   * must be bindable and not None, and the history row's nullable
   * `change_summary` bindable. The result is the stored content and summary.
   */
  function UpdateColumns(content: Json, changeSummary: Json): Result<(string, Option<string>)> {
    if !Bindable(content) then Err(BindingError)
    else if content.JNull? then Err(NotNullError("documents.content"))
    else if !Bindable(changeSummary) then Err(BindingError)
    else Ok((PyStr(content), ColumnText(changeSummary)))
  }

  /** The tables after `update_document`, or the "not found" error, or the error of the flush. */
  function Updated(t: Tables, id: int, content: Json, changeSummary: Json, changeType: string): Result<Tables> {
    if id !in t.documents then Err("Document " + IntToDecimal(id) + " not found")
    else
      match UpdateColumns(content, changeSummary)
      case Err(e) => Err(e)
      case Ok((text, summary)) =>
        var prior := t.documents[id];
        var row := prior.(content := text, version := prior.version + 1, updatedAt := t.clock);
        Ok(t.(documents := t.documents[id := row],
              versions := t.versions + [VersionRow(id, prior.version + 1, text, summary, changeType)],
              clock := t.clock + 1))
  }

  /** `update_document`; a failure changes nothing. */
  method UpdateDocument(db: Db, id: int, content: Json, changeSummary: Json, changeType: string)
    returns (r: Result<DocumentRow>)
    modifies db
    ensures Updated(old(db.Snapshot()), id, content, changeSummary, changeType).Err? ==>
      r == Err(Updated(old(db.Snapshot()), id, content, changeSummary, changeType).message) && db.Snapshot() == old(db.Snapshot())
    ensures Updated(old(db.Snapshot()), id, content, changeSummary, changeType).Ok? ==>
      db.Snapshot() == Updated(old(db.Snapshot()), id, content, changeSummary, changeType).value
      && r == Ok(db.documents[id])
  {
    if id !in db.documents {
      return Err("Document " + IntToDecimal(id) + " not found");
    }
    var columns := UpdateColumns(content, changeSummary);
    if columns.Err? {
      return Err(columns.message);
    }
    var (text, summary) := columns.value;
    var doc := db.documents[id];
    var oldVersion := doc.version;
    doc := doc.(content := text, version := oldVersion + 1, updatedAt := db.clock);
    db.documents := db.documents[id := doc];
    db.versions := db.versions + [VersionRow(id, oldVersion + 1, text, summary, changeType)];
    db.clock := db.clock + 1;
    r := Ok(doc);
  }

  /** `get_document`: the row with that primary key, or None. */
  function GetDocument(t: Tables, id: int): (r: Option<DocumentRow>)
    ensures r.Some? <==> id in t.documents
    ensures r.Some? ==> r.value == t.documents[id]
  {
    if id in t.documents then Some(t.documents[id]) else None
  }

  /**
   * Creation fails exactly when a bound column cannot be bound or the topic
   * or the content is None, and changes nothing then. Otherwise it keeps
   * every table invariant, and the new document is version 1 with the
   * given topic and content and exactly one history row.
   */
  lemma CreatedOk(t: Tables, d: NewDocument)
    requires TablesOk(t)
    ensures Created(t, d).Err? <==>
      !(Bindable(d.topic) && Bindable(d.content) && Bindable(d.categoryPath) && Bindable(d.parentDocumentId))
      || d.topic.JNull? || d.content.JNull?
    ensures Created(t, d).Ok? ==>
      var (t', id) := Created(t, d).value;
      && TablesOk(t')
      && id !in t.documents && t'.documents[id].version == 1
      && t'.documents[id].topic == PyStr(d.topic) && t'.documents[id].content == PyStr(d.content)
      && VersionsOf(t'.versions, id) == [1]
      && t'.versions[|t'.versions| - 1] == VersionRow(id, 1, PyStr(d.content), Some(InitialChangeSummary), "created")
      && (d.entities.None? ==> t'.documents[id].entities == [])
      && forall k | k in t.documents :: t'.documents[k] == t.documents[k] && VersionsOf(t'.versions, k) == VersionsOf(t.versions, k)
  {
    if Created(t, d).Ok? {
      var (t', id) := Created(t, d).value;
      CreatedDocumentsOk(t.documents, t.nextDocumentId, t.clock, t'.documents[id]);
      CreatedHistoryOk(t.documents, t.nextDocumentId, t.clock, t.versions, t'.documents[id], t'.versions[|t'.versions| - 1]);
      assert t'.versions == t.versions + [t'.versions[|t'.versions| - 1]];
    }
  }

  /** A row stamped with the clock under the next id keeps the document invariant one tick later. */
  lemma CreatedDocumentsOk(docs: map<int, DocumentRow>, next: int, clock: nat, row: DocumentRow)
    requires DocumentsOk(docs, next, clock)
    requires row.createdAt == clock && row.updatedAt == clock
    ensures next !in docs
    ensures DocumentsOk(docs[next := row], next + 1, clock + 1)
  {
  }

  /** A version-1 row with its single history row keeps the history invariant and leaves other histories alone. */
  lemma CreatedHistoryOk(docs: map<int, DocumentRow>, next: int, clock: nat, vs: seq<VersionRow>, row: DocumentRow, r: VersionRow)
    requires DocumentsOk(docs, next, clock) && HistoryOk(docs, vs)
    requires row.version == 1 && r.documentId == next && r.version == 1
    ensures VersionsOf(vs + [r], next) == [1]
    ensures forall k | k in docs :: VersionsOf(vs + [r], k) == VersionsOf(vs, k)
    ensures HistoryOk(docs[next := row], vs + [r])
  {
    forall i | 0 <= i < |vs|
      ensures vs[i].documentId != next
    {
    }
    VersionsOfAbsent(vs, next);
    VersionsOfAppend(vs, r, next);
    assert UpTo(1) == [1] by { assert UpTo(0) == []; }
    forall k | k in docs
      ensures VersionsOf(vs + [r], k) == VersionsOf(vs, k)
    {
      VersionsOfAppend(vs, r, k);
    }
  }

  /**
   * An update fails exactly for a missing id or a content or change
   * summary the flush rejects (see `UpdateColumns`). Otherwise the version
   * goes up by one, the content is replaced, one history row with the new
   * version, content and summary (NULL for None) is added, and every other
   * document is untouched.
   */
  lemma UpdatedOk(t: Tables, id: int, content: Json, changeSummary: Json, changeType: string)
    ensures Updated(t, id, content, changeSummary, changeType).Err? <==>
      id !in t.documents || !Bindable(content) || content.JNull? || !Bindable(changeSummary)
    ensures Updated(t, id, content, changeSummary, changeType).Ok? ==>
      var t' := Updated(t, id, content, changeSummary, changeType).value;
      && id in t'.documents
      && t'.documents[id].version == t.documents[id].version + 1
      && t'.documents[id].content == PyStr(content)
      && t'.documents[id].topic == t.documents[id].topic
      && t'.versions == t.versions + [VersionRow(id, t.documents[id].version + 1, PyStr(content), ColumnText(changeSummary), changeType)]
      && t'.documents.Keys == t.documents.Keys
      && forall k | k in t.documents && k != id :: t'.documents[k] == t.documents[k]
  {
  }

  /** A successful update keeps the table invariants, and the updated document's history runs exactly up to its new version. */
  lemma UpdatedKeepsTables(t: Tables, id: int, content: Json, changeSummary: Json, changeType: string)
    requires TablesOk(t)
    ensures Updated(t, id, content, changeSummary, changeType).Ok? ==>
      var t' := Updated(t, id, content, changeSummary, changeType).value;
      TablesOk(t') && VersionsOf(t'.versions, id) == UpTo(t'.documents[id].version)
  {
    if Updated(t, id, content, changeSummary, changeType).Ok? {
      var row := t.documents[id].(content := PyStr(content), version := t.documents[id].version + 1, updatedAt := t.clock);
      var r := VersionRow(id, t.documents[id].version + 1, PyStr(content), ColumnText(changeSummary), changeType);
      assert Updated(t, id, content, changeSummary, changeType).value
        == t.(documents := t.documents[id := row], versions := t.versions + [r], clock := t.clock + 1);
      UpdatedTablesOk(t, id, row, r);
    }
  }

  /** The tables with one document restamped and bumped and its history row appended keep every invariant. */
  lemma UpdatedTablesOk(t: Tables, id: int, row: DocumentRow, r: VersionRow)
    requires TablesOk(t) && id in t.documents
    requires row.version == t.documents[id].version + 1 && row.createdAt == t.documents[id].createdAt && row.updatedAt == t.clock
    requires r.documentId == id && r.version == row.version
    ensures TablesOk(t.(documents := t.documents[id := row], versions := t.versions + [r], clock := t.clock + 1))
    ensures VersionsOf(t.versions + [r], id) == UpTo(row.version)
  {
    UpdatedDocumentsOk(t.documents, t.nextDocumentId, t.clock, id, row);
    UpdatedHistoryOk(t.documents, t.versions, id, row, r);
    MessagesLater(t.messages, t.nextMessageId, t.clock, t.clock + 1);
    assert t.documents[id := row][id] == row;
  }

  /** Restamping one document with the current clock keeps the document invariant one tick later. */
  lemma UpdatedDocumentsOk(docs: map<int, DocumentRow>, next: int, clock: nat, id: int, row: DocumentRow)
    requires DocumentsOk(docs, next, clock)
    requires id in docs && row.createdAt == docs[id].createdAt && row.updatedAt == clock
    ensures DocumentsOk(docs[id := row], next, clock + 1)
  {
  }

  /** Bumping one document's version while appending the matching history row keeps the history invariant. */
  lemma UpdatedHistoryOk(docs: map<int, DocumentRow>, vs: seq<VersionRow>, id: int, row: DocumentRow, r: VersionRow)
    requires HistoryOk(docs, vs)
    requires id in docs && row.version == docs[id].version + 1
    requires r.documentId == id && r.version == row.version
    ensures HistoryOk(docs[id := row], vs + [r])
  {
    var docs' := docs[id := row];
    var vs' := vs + [r];
    forall k | k in docs'
      ensures docs'[k].version >= 1 && VersionsOf(vs', k) == UpTo(docs'[k].version)
    {
      VersionsOfAppend(vs, r, k);
      if k == id {
        assert UpTo(row.version) == UpTo(docs[id].version) + [row.version];
      } else {
        assert docs'[k] == docs[k];
      }
    }
    forall i | 0 <= i < |vs'| ensures vs'[i].documentId in docs' {
      if i < |vs| {
        assert vs'[i] == vs[i];
      }
    }
  }

  // ---------------------------------------------------------------------
  // find_document_by_topic
  // ---------------------------------------------------------------------

  /**
   * SQL `LIKE` without an escape character: `%` matches any run of
   * characters and `_` any one character; letters compare as given (the
   * case folding of `ilike` is applied by `ILike`).
   */
  predicate Like(p: string, s: string)
    decreases |p| + |s|
  {
    if p == [] then s == []
    else if p[0] == '%' then Like(p[1..], s) || (s != [] && Like(p, s[1..]))
    else s != [] && (p[0] == '_' || p[0] == s[0]) && Like(p[1..], s[1..])
  }

  /** `text.ilike(pattern)`: `lower(text) LIKE lower(pattern)`, ASCII case folding. */
  predicate ILike(text: string, pattern: string) {
    Like(Lower(pattern), Lower(text))
  }

  /** The pattern `f"%{topic}%"`. */
  function TopicPattern(topic: string): string {
    "%" + topic + "%"
  }

  predicate TopicMatches(row: DocumentRow, sessionId: string, topic: string) {
    row.sessionId == sessionId && ILike(row.topic, TopicPattern(topic))
  }

  /**
   * Among the documents with an id below `n`, the matching one updated
   * last, or `None` when none matches.
   */
  function LatestMatchBelow(docs: map<int, DocumentRow>, sessionId: string, topic: string, n: int): (r: Option<int>)
    ensures r.Some? ==> r.value < n && r.value in docs && TopicMatches(docs[r.value], sessionId, topic)
    ensures r.Some? ==> forall j | 1 <= j < n && j in docs && TopicMatches(docs[j], sessionId, topic) ::
      docs[j].updatedAt <= docs[r.value].updatedAt
    ensures r.None? ==> forall j | 1 <= j < n && j in docs :: !TopicMatches(docs[j], sessionId, topic)
    decreases if n < 1 then 0 else n
  {
    if n <= 1 then None
    else
      var best := LatestMatchBelow(docs, sessionId, topic, n - 1);
      var k := n - 1;
      if k in docs && TopicMatches(docs[k], sessionId, topic) && (best.None? || docs[k].updatedAt > docs[best.value].updatedAt)
      then Some(k)
      else best
  }

  /** `find_document_by_topic`: the session's most recently updated document whose topic matches, if any. */
  function FindDocumentByTopic(t: Tables, sessionId: string, topic: string): Option<int> {
    LatestMatchBelow(t.documents, sessionId, topic, t.nextDocumentId)
  }

  /** Over a valid store the lookup finds exactly the newest match: no match is left out and none is newer. */
  lemma FindDocumentByTopicLatest(t: Tables, sessionId: string, topic: string)
    requires DocumentsOk(t.documents, t.nextDocumentId, t.clock)
    ensures var r := FindDocumentByTopic(t, sessionId, topic);
      && (r.None? <==> forall j | j in t.documents :: !TopicMatches(t.documents[j], sessionId, topic))
      && (r.Some? ==> t.documents[r.value].sessionId == sessionId
                      && forall j | j in t.documents && j != r.value && TopicMatches(t.documents[j], sessionId, topic) ::
                           t.documents[j].updatedAt < t.documents[r.value].updatedAt)
  {
  }

  predicate NoWildcards(q: string) {
    '%' !in q && '_' !in q
  }

  /** A leading `%` matches any prefix. */
  lemma {:induction false} LikePercent(r: string, s: string)
    ensures Like("%" + r, s) <==> exists i | 0 <= i <= |s| :: Like(r, s[i..])
    decreases |s|
  {
    var p := "%" + r;
    assert p[1..] == r;
    if s == [] {
      assert s[0..] == s;
    } else {
      LikePercent(r, s[1..]);
      assert Like(p, s) <==> Like(r, s) || Like(p, s[1..]);
      if Like(p, s) {
        if Like(r, s) {
          assert s[0..] == s;
          assert Like(r, s[0..]);
        } else {
          var i :| 0 <= i <= |s[1..]| && Like(r, s[1..][i..]);
          assert s[1..][i..] == s[i + 1..];
          assert Like(r, s[i + 1..]);
        }
      }
      if exists i | 0 <= i <= |s| :: Like(r, s[i..]) {
        var i :| 0 <= i <= |s| && Like(r, s[i..]);
        if i > 0 {
          assert s[1..][i - 1..] == s[i..];
          assert Like(p, s[1..]);
        } else {
          assert s[0..] == s;
          assert Like(r, s);
        }
        assert Like(p, s);
      }
    }
  }

  /** `%` alone matches everything. */
  lemma LikeAll(s: string)
    ensures Like("%", s)
  {
    LikePercent("", s);
    assert s[|s|..] == [];
  }

  /** A wildcard-free pattern followed by `%` matches exactly the texts that start with it. */
  lemma {:induction false} LikePrefix(q: string, s: string)
    requires NoWildcards(q)
    ensures Like(q + "%", s) <==> StartsWith(s, q)
    decreases |q|
  {
    if q == [] {
      assert q + "%" == "%";
      LikeAll(s);
    } else {
      var p := q + "%";
      assert p[0] == q[0] && p[1..] == q[1..] + "%";
      if s != [] {
        LikePrefix(q[1..], s[1..]);
        if StartsWith(s, q) {
          assert s[1..][..|q| - 1] == s[..|q|][1..];
        }
        if StartsWith(s[1..], q[1..]) && s[0] == q[0] {
          assert s[..|q|] == [s[0]] + s[1..][..|q| - 1];
          assert q == [q[0]] + q[1..];
        }
      }
    }
  }

  lemma LowerAppend(a: string, b: string)
    ensures Lower(a + b) == Lower(a) + Lower(b)
  {
  }

  /**
   * With no `%` or `_` in the query, the topic pattern matches exactly the
   * topics that contain the query, ignoring ASCII case.
   */
  lemma {:induction false} TopicPatternIsContains(topic: string, q: string)
    requires NoWildcards(q)
    ensures ILike(topic, TopicPattern(q)) <==> Contains(Lower(topic), Lower(q))
  {
    var lq := Lower(q);
    var lt := Lower(topic);
    LowerAppend("%", q);
    LowerAppend("%" + q, "%");
    assert Lower("%") == "%";
    assert Lower(TopicPattern(q)) == "%" + (lq + "%");
    assert NoWildcards(lq) by {
      forall i | 0 <= i < |lq|
        ensures lq[i] != '%' && lq[i] != '_'
      {
        assert lq[i] == LowerChar(q[i]);
        assert q[i] in q;
      }
    }
    LikePercent(lq + "%", lt);
    forall i | 0 <= i <= |lt|
      ensures Like(lq + "%", lt[i..]) <==> At(lt, lq, i)
    {
      LikePrefix(lq, lt[i..]);
      if StartsWith(lt[i..], lq) {
        assert lt[i..][..|lq|] == lt[i..i + |lq|];
      }
      if At(lt, lq, i) {
        assert lt[i..][..|lq|] == lt[i..i + |lq|];
      }
    }
  }

  /** An underscore in the query is a wildcard: "_" finds any document whose topic is non-empty. */
  lemma UnderscoreMatchesAnyTopic(topic: string)
    requires topic != ""
    ensures ILike(topic, TopicPattern("_"))
  {
    var lt := Lower(topic);
    assert Lower(TopicPattern("_")) == "%_%";
    LikeAll(lt[1..]);
    assert "%_%"[1..] == "_%";
    assert "_%"[1..] == "%";
    assert Like("_%", lt);
    LikePercent("_%", lt);
    assert lt[0..] == lt;
  }

  // ---------------------------------------------------------------------
  // list_session_documents
  // ---------------------------------------------------------------------

  /** The session's documents with an id below `n`, highest id first. */
  function SessionDocsBelow(docs: map<int, DocumentRow>, sessionId: string, n: int): seq<int>
    decreases if n < 1 then 0 else n
  {
    if n <= 1 then []
    else (if n - 1 in docs && docs[n - 1].sessionId == sessionId then [n - 1] else []) + SessionDocsBelow(docs, sessionId, n - 1)
  }

  /**
   * `list_session_documents`: ids of that session's documents only, each
   * allocated one, highest id first.
   */
  function ListSessionDocuments(t: Tables, sessionId: string): (r: seq<int>)
    ensures forall i | 0 <= i < |r| :: r[i] in t.documents && t.documents[r[i]].sessionId == sessionId
    ensures forall id | 1 <= id < t.nextDocumentId && id in t.documents && t.documents[id].sessionId == sessionId :: id in r
    ensures forall i, j | 0 <= i < j < |r| :: r[i] > r[j]
  {
    SessionDocsBelowShape(t.documents, sessionId, t.nextDocumentId);
    SessionDocsBelow(t.documents, sessionId, t.nextDocumentId)
  }

  lemma {:induction false} SessionDocsBelowShape(docs: map<int, DocumentRow>, sessionId: string, n: int)
    ensures forall i | 0 <= i < |SessionDocsBelow(docs, sessionId, n)| ::
      var id := SessionDocsBelow(docs, sessionId, n)[i]; id in docs && docs[id].sessionId == sessionId && 1 <= id < n
    ensures forall id | 1 <= id < n && id in docs && docs[id].sessionId == sessionId :: id in SessionDocsBelow(docs, sessionId, n)
    ensures forall i, j | 0 <= i < j < |SessionDocsBelow(docs, sessionId, n)| ::
      SessionDocsBelow(docs, sessionId, n)[i] > SessionDocsBelow(docs, sessionId, n)[j]
    decreases if n < 1 then 0 else n
  {
    if n > 1 {
      SessionDocsBelowShape(docs, sessionId, n - 1);
    }
  }

  /**
   * `list_session_documents` lists exactly the session's documents, each
   * once, newest created first.
   */
  lemma ListSessionDocumentsNewestFirst(t: Tables, sessionId: string)
    requires DocumentsOk(t.documents, t.nextDocumentId, t.clock)
    ensures var l := ListSessionDocuments(t, sessionId);
      && (forall i | 0 <= i < |l| :: l[i] in t.documents && t.documents[l[i]].sessionId == sessionId)
      && (forall id | id in t.documents && t.documents[id].sessionId == sessionId :: id in l)
      && forall i, j | 0 <= i < j < |l| :: t.documents[l[i]].createdAt > t.documents[l[j]].createdAt
  {
    SessionDocsBelowShape(t.documents, sessionId, t.nextDocumentId);
  }

  // ---------------------------------------------------------------------
  // update_document_entities / save_follow_ups
  // ---------------------------------------------------------------------

  /** The tables after `update_document_entities`, or `None` for a missing document. */
  function EntitiesUpdated(t: Tables, id: int, entities: seq<Json>): Option<Tables> {
    if id !in t.documents then None
    else Some(t.(documents := t.documents[id := t.documents[id].(entities := entities, updatedAt := t.clock)],
                 clock := t.clock + 1))
  }

  /** `update_document_entities` */
  method UpdateDocumentEntities(db: Db, id: int, entities: seq<Json>) returns (r: Option<DocumentRow>)
    modifies db
    ensures EntitiesUpdated(old(db.Snapshot()), id, entities).None? ==> r.None? && db.Snapshot() == old(db.Snapshot())
    ensures EntitiesUpdated(old(db.Snapshot()), id, entities).Some? ==>
      db.Snapshot() == EntitiesUpdated(old(db.Snapshot()), id, entities).value && r == Some(db.documents[id])
  {
    if id !in db.documents {
      return None;
    }
    var doc := db.documents[id].(entities := entities, updatedAt := db.clock);
    db.documents := db.documents[id := doc];
    db.clock := db.clock + 1;
    r := Some(doc);
  }

  /** Replacing the entity list touches nothing else: not the version, the content or the history. */
  lemma EntitiesUpdatedOk(t: Tables, id: int, entities: seq<Json>)
    requires TablesOk(t)
    ensures EntitiesUpdated(t, id, entities).None? <==> id !in t.documents
    ensures EntitiesUpdated(t, id, entities).Some? ==>
      var t' := EntitiesUpdated(t, id, entities).value;
      && TablesOk(t')
      && t'.documents[id].entities == entities
      && t'.documents[id].version == t.documents[id].version
      && t'.documents[id].content == t.documents[id].content
      && t'.versions == t.versions
  {
    if id in t.documents {
      var t' := EntitiesUpdated(t, id, entities).value;
      assert DocumentsOk(t'.documents, t'.nextDocumentId, t'.clock);
      assert HistoryOk(t'.documents, t'.versions);
    }
  }

  /**
   * The record `save_follow_ups` makes for one question dict, as the flush
   * writes it: every column must be bindable, and `question`, declared
   * `Mapped[str]`, must not be None (a missing key gives "").
   */
  function FollowUpOf(documentId: int, q: map<string, Json>): Result<FollowUpRow> {
    var question, questionType, entityTag := Lookup(q, "question", JStr("")), Lookup(q, "type", JNull), Lookup(q, "entity_tag", JNull);
    if !(Bindable(question) && Bindable(questionType) && Bindable(entityTag)) then Err(BindingError)
    else if question.JNull? then Err(NotNullError("follow_up_questions.question"))
    else Ok(FollowUpRow(documentId, PyStr(question), ColumnText(questionType), ColumnText(entityTag), false))
  }

  /** The records the flush writes for a list of question dicts, in order, or the error of the first it cannot write. */
  function FollowUpRows(documentId: int, questions: seq<map<string, Json>>): Result<seq<FollowUpRow>>
    decreases |questions|
  {
    if questions == [] then Ok([])
    else
      match FollowUpRows(documentId, questions[..|questions| - 1])
      case Err(e) => Err(e)
      case Ok(rows) =>
        match FollowUpOf(documentId, questions[|questions| - 1])
        case Err(e) => Err(e)
        case Ok(row) => Ok(rows + [row])
  }

  /** A question dict fails exactly on a None question or an unbindable field; otherwise its text, type and tag are stored. */
  lemma FollowUpOfFacts(documentId: int, q: map<string, Json>)
    ensures var question, questionType, entityTag := Lookup(q, "question", JStr("")), Lookup(q, "type", JNull), Lookup(q, "entity_tag", JNull);
      && (FollowUpOf(documentId, q).Err? <==> question.JNull? || !Bindable(question) || !Bindable(questionType) || !Bindable(entityTag))
      && (question.JNull? && Bindable(questionType) && Bindable(entityTag) ==>
            FollowUpOf(documentId, q) == Err(NotNullError("follow_up_questions.question")))
      && ("question" !in q && Bindable(questionType) && Bindable(entityTag) ==> FollowUpOf(documentId, q).Ok? && FollowUpOf(documentId, q).value.question == "")
      && (FollowUpOf(documentId, q).Ok? ==>
            var row := FollowUpOf(documentId, q).value;
            && row.documentId == documentId && !row.isClicked
            && Some(row.question) == ColumnText(question)
            && row.questionType == ColumnText(questionType) && row.entityTag == ColumnText(entityTag))
  {
  }

  /**
   * The flush succeeds exactly when every question can be written, and then
   * writes one record per question, in order; otherwise it reports the
   * error of the first question it cannot write.
   */
  lemma {:induction false} FollowUpRowsFacts(documentId: int, questions: seq<map<string, Json>>)
    ensures FollowUpRows(documentId, questions).Ok? <==> forall i | 0 <= i < |questions| :: FollowUpOf(documentId, questions[i]).Ok?
    ensures FollowUpRows(documentId, questions).Ok? ==>
      var rows := FollowUpRows(documentId, questions).value;
      |rows| == |questions| && forall i | 0 <= i < |questions| :: rows[i] == FollowUpOf(documentId, questions[i]).value
    ensures FollowUpRows(documentId, questions).Err? ==>
      exists k | 0 <= k < |questions| ::
        && (forall i | 0 <= i < k :: FollowUpOf(documentId, questions[i]).Ok?)
        && FollowUpOf(documentId, questions[k]).Err?
        && FollowUpRows(documentId, questions) == Err(FollowUpOf(documentId, questions[k]).message)
    decreases |questions|
  {
    if questions != [] {
      var n := |questions| - 1;
      var init := questions[..n];
      FollowUpRowsFacts(documentId, init);
      assert forall i | 0 <= i < n :: init[i] == questions[i];
      if FollowUpRows(documentId, init).Err? {
        var k :| 0 <= k < n && (forall i | 0 <= i < k :: FollowUpOf(documentId, init[i]).Ok?)
                 && FollowUpOf(documentId, init[k]).Err?
                 && FollowUpRows(documentId, init) == Err(FollowUpOf(documentId, init[k]).message);
        assert init[k] == questions[k];
      } else if FollowUpOf(documentId, questions[n]).Err? {
        assert forall i | 0 <= i < n :: FollowUpOf(documentId, questions[i]).Ok?;
      }
    }
  }

  /**
   * `save_follow_ups`: a record per question is staged, and the flush then
   * writes them all at once; when it cannot write one, it raises and
   * nothing is written.
   */
  method SaveFollowUps(db: Db, documentId: int, questions: seq<map<string, Json>>) returns (r: Result<seq<FollowUpRow>>)
    modifies db
    ensures r == FollowUpRows(documentId, questions)
    ensures r.Err? ==> db.Snapshot() == old(db.Snapshot())
    ensures r.Ok? ==> db.Snapshot() == old(db.Snapshot()).(followUps := old(db.followUps) + r.value)
  {
    var records: seq<FollowUpRow> := [];
    var i := 0;
    while i < |questions|
      invariant 0 <= i <= |questions|
      invariant FollowUpRows(documentId, questions[..i]) == Ok(records)
    {
      assert questions[..i + 1][..i] == questions[..i];
      var fq := FollowUpOf(documentId, questions[i]);
      if fq.Err? {
        FollowUpRowsFailed(documentId, questions, i + 1);
        return Err(fq.message);
      }
      records := records + [fq.value];
      i := i + 1;
    }
    assert questions[..i] == questions;
    db.followUps := db.followUps + records;
    r := Ok(records);
  }

  /** A question the flush cannot write fails the whole list with that error when all before it succeed. */
  lemma {:induction false} FollowUpRowsFailed(documentId: int, questions: seq<map<string, Json>>, k: nat)
    requires 0 < k <= |questions|
    requires FollowUpRows(documentId, questions[..k]).Err?
    ensures FollowUpRows(documentId, questions) == FollowUpRows(documentId, questions[..k])
    decreases |questions| - k
  {
    if k < |questions| {
      assert questions[..k + 1][..k] == questions[..k];
      FollowUpRowsFailed(documentId, questions, k + 1);
    } else {
      assert questions[..k] == questions;
    }
  }
}
