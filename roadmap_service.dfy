/**
 * Roadmaps: milestone progress from document counts, creation with
 * versioning and single activation per session, and partial updates.
 */
module RoadmapService {
  import opened Wrappers
  import opened Json
  import opened Store

  // ---------------------------------------------------------------------
  // Milestone progress and status
  // ---------------------------------------------------------------------

  /** Four documents make a milestone complete. */
  const TargetDocs := 4

  /** `calc_milestone_progress`: the document count over four, capped at 2.0. */
  function Progress(documentCount: nat): real {
    var ratio := documentCount as real / TargetDocs as real;
    if ratio < 2.0 then ratio else 2.0
  }

  /** `calc_milestone_status` */
  function Status(progress: real): string {
    if progress >= 1.0 then "completed"
    else if progress > 0.0 then "active"
    else "locked"
  }

  /**
   * Progress is a quarter per document up to eight documents and 2.0 from
   * then on; a milestone is completed from four documents on, active with
   * one to three, and locked with none.
   */
  lemma StatusByCount(n: nat)
    ensures 0.0 <= Progress(n) <= 2.0
    ensures n <= 8 ==> Progress(n) == n as real / 4.0
    ensures n >= 8 ==> Progress(n) == 2.0
    ensures Status(Progress(n)) == "completed" <==> n >= 4
    ensures Status(Progress(n)) == "active" <==> 1 <= n < 4
    ensures Status(Progress(n)) == "locked" <==> n == 0
  {
  }

  /** More documents never lower the progress. */
  lemma ProgressMonotone(a: nat, b: nat)
    requires a <= b
    ensures Progress(a) <= Progress(b)
  {
  }

  // ---------------------------------------------------------------------
  // get_roadmap_progress
  // ---------------------------------------------------------------------

  /** One element of the result's "milestones" list. */
  datatype MilestoneProgress = MilestoneProgress(
    id: Json,
    title: Json,
    description: Json,
    status: string,
    progress: real,
    documentCount: nat,
    coveredTopics: set<Json>)

  /** The dict `get_roadmap_progress` returns. */
  datatype RoadmapProgress = RoadmapProgress(
    roadmapId: int,
    goal: string,
    overallProgress: real,
    milestones: seq<MilestoneProgress>,
    orphanDocumentCount: nat)

  /**
   * How a milestone's "id" value finds its group in the dict keyed by
   * integer milestone ids: ints, booleans and integral floats hash like
   * the integer they equal; None and strings find nothing; lists and dicts
   * are unhashable and the lookup raises.
   */
  datatype GroupKey = Key(k: int) | NoKey | Unhashable

  function KeyOf(id: Json): GroupKey {
    match id
    case JInt(i) => Key(i)
    case JBool(b) => Key(if b then 1 else 0)
    case JReal(r) => if r == r.Floor as real then Key(r.Floor) else NoKey
    case JArr(_) => Unhashable
    case JObj(_) => Unhashable
    case _ => NoKey
  }

  /** The roadmap's documents with an id below `n`, in id order. */
  function RoadmapDocs(docs: map<int, DocumentRow>, roadmapId: int, n: int): seq<DocumentRow>
    decreases if n < 1 then 0 else n
  {
    if n <= 1 then []
    else RoadmapDocs(docs, roadmapId, n - 1) + (if n - 1 in docs && docs[n - 1].roadmapId == Some(roadmapId) then [docs[n - 1]] else [])
  }

  /** The documents assigned to one milestone id, in order. */
  function WithMilestone(ds: seq<DocumentRow>, k: int): seq<DocumentRow> {
    if ds == [] then []
    else WithMilestone(ds[..|ds| - 1], k) + (if ds[|ds| - 1].milestoneId == Some(k) then [ds[|ds| - 1]] else [])
  }

  /** The documents with no milestone. */
  function Orphans(ds: seq<DocumentRow>): seq<DocumentRow> {
    if ds == [] then []
    else Orphans(ds[..|ds| - 1]) + (if ds[|ds| - 1].milestoneId.None? then [ds[|ds| - 1]] else [])
  }

  /** `set(doc.entities)`; `None` when an entity is unhashable. */
  function EntitySet(d: DocumentRow): Option<set<Json>> {
    if exists i | 0 <= i < |d.entities| :: d.entities[i].JArr? || d.entities[i].JObj? then None
    else Some(set i | 0 <= i < |d.entities| :: d.entities[i])
  }

  /** The union of the documents' entity sets. */
  function Covered(ds: seq<DocumentRow>): Option<set<Json>> {
    if ds == [] then Some({})
    else match (Covered(ds[..|ds| - 1]), EntitySet(ds[|ds| - 1]))
      case (Some(a), Some(b)) => Some(a + b)
      case _ => None
  }

  /** The group of a milestone id: its documents, or none. */
  function GroupOf(all: seq<DocumentRow>, key: GroupKey): seq<DocumentRow> {
    if key.Key? then WithMilestone(all, key.k) else []
  }

  /** One milestone's entry; `None` when the milestone is not a dict or its id is unhashable. */
  function Entry(m: Json, all: seq<DocumentRow>): Option<MilestoneProgress> {
    if !m.JObj? then None
    else
      var id := Lookup(m.fields, "id", JNull);
      if KeyOf(id).Unhashable? then None
      else
        var ds := GroupOf(all, KeyOf(id));
        match Covered(ds)
        case None => None
        case Some(c) =>
          Some(MilestoneProgress(id, Lookup(m.fields, "title", JNull), Lookup(m.fields, "description", JNull),
                                 Status(Progress(|ds|)), Progress(|ds|), |ds|, c))
  }

  function Entries(ms: seq<Json>, all: seq<DocumentRow>): Option<seq<MilestoneProgress>> {
    if ms == [] then Some([])
    else match (Entries(ms[..|ms| - 1], all), Entry(ms[|ms| - 1], all))
      case (Some(es), Some(e)) => Some(es + [e])
      case _ => None
  }

  function SumProgress(es: seq<MilestoneProgress>): real {
    if es == [] then 0.0 else SumProgress(es[..|es| - 1]) + es[|es| - 1].progress
  }

  /** The result of `get_roadmap_progress`, or `None` when it raises. */
  function ProgressReport(docs: map<int, DocumentRow>, nextDocumentId: int, roadmapId: int, roadmap: RoadmapRow): Option<RoadmapProgress> {
    var all := RoadmapDocs(docs, roadmapId, nextDocumentId);
    match Entries(roadmap.milestones, all)
    case None => None
    case Some(es) =>
      var n := |roadmap.milestones|;
      Some(RoadmapProgress(roadmapId, roadmap.goal, if n > 0 then SumProgress(es) / n as real else 0.0, es, |Orphans(all)|))
  }

  /** Splits the roadmap's documents into milestone groups and orphans in one pass. */
  method GroupDocuments(all: seq<DocumentRow>) returns (groups: map<int, seq<DocumentRow>>, orphans: seq<DocumentRow>)
    ensures forall k | k in groups :: groups[k] == WithMilestone(all, k)
    ensures forall k | k !in groups :: WithMilestone(all, k) == []
    ensures orphans == Orphans(all)
  {
    groups := map[];
    orphans := [];
    var i := 0;
    while i < |all|
      invariant 0 <= i <= |all|
      invariant forall k | k in groups :: groups[k] == WithMilestone(all[..i], k)
      invariant forall k | k !in groups :: WithMilestone(all[..i], k) == []
      invariant orphans == Orphans(all[..i])
    {
      var d := all[i];
      assert all[..i + 1][..i] == all[..i];
      if d.milestoneId.None? {
        orphans := orphans + [d];
      } else {
        var k := d.milestoneId.value;
        if k !in groups {
          groups := groups[k := []];
        }
        groups := groups[k := groups[k] + [d]];
      }
      i := i + 1;
    }
    assert all[..i] == all;
  }

  /** The union of a group's entity sets, or `None` at the first unhashable entity. */
  method CoveredTopics(ds: seq<DocumentRow>) returns (r: Option<set<Json>>)
    ensures r == Covered(ds)
  {
    var covered: set<Json> := {};
    var q := 0;
    while q < |ds|
      invariant 0 <= q <= |ds|
      invariant Covered(ds[..q]) == Some(covered)
    {
      assert ds[..q + 1][..q] == ds[..q];
      var es := EntitySet(ds[q]);
      if es.None? {
        CoveredNoneAfter(ds, q);
        return None;
      }
      covered := covered + es.value;
      q := q + 1;
    }
    assert ds[..q] == ds;
    r := Some(covered);
  }

  /** One milestone's entry, computed from the groups the first pass built. */
  method MilestoneEntry(m: Json, all: seq<DocumentRow>, groups: map<int, seq<DocumentRow>>) returns (r: Option<MilestoneProgress>)
    requires forall k | k in groups :: groups[k] == WithMilestone(all, k)
    requires forall k | k !in groups :: WithMilestone(all, k) == []
    ensures r == Entry(m, all)
  {
    if !m.JObj? {
      return None;
    }
    var id := Lookup(m.fields, "id", JNull);
    var key := KeyOf(id);
    if key.Unhashable? {
      return None;
    }
    var ds: seq<DocumentRow> := if key.Key? && key.k in groups then groups[key.k] else [];
    assert ds == GroupOf(all, key);
    var covered := CoveredTopics(ds);
    if covered.None? {
      return None;
    }
    var progress := Progress(|ds|);
    r := Some(MilestoneProgress(id, Lookup(m.fields, "title", JNull), Lookup(m.fields, "description", JNull),
                                Status(progress), progress, |ds|, covered.value));
  }

  /** `get_roadmap_progress`: group the roadmap's documents by milestone, then one entry per milestone. */
  method GetRoadmapProgress(db: Db, roadmapId: int, roadmap: RoadmapRow) returns (r: Option<RoadmapProgress>)
    ensures r == ProgressReport(db.documents, db.nextDocumentId, roadmapId, roadmap)
  {
    var all := RoadmapDocs(db.documents, roadmapId, db.nextDocumentId);
    var groups, orphans := GroupDocuments(all);
    var ms := roadmap.milestones;
    var entries: seq<MilestoneProgress> := [];
    var total := 0.0;
    var j := 0;
    while j < |ms|
      invariant 0 <= j <= |ms|
      invariant Entries(ms[..j], all) == Some(entries)
      invariant total == SumProgress(entries)
    {
      assert ms[..j + 1][..j] == ms[..j];
      var e := MilestoneEntry(ms[j], all, groups);
      if e.None? {
        EntriesNoneAfter(ms, all, j);
        return None;
      }
      var entries' := entries + [e.value];
      assert entries'[..|entries'| - 1] == entries;
      entries := entries';
      total := total + e.value.progress;
      j := j + 1;
    }
    assert ms[..j] == ms;
    var n := |ms|;
    r := Some(RoadmapProgress(roadmapId, roadmap.goal, if n > 0 then total / n as real else 0.0, entries, |orphans|));
  }

  lemma {:induction false} EntriesNoneAfter(ms: seq<Json>, all: seq<DocumentRow>, j: nat)
    requires j < |ms| && Entry(ms[j], all).None?
    ensures Entries(ms, all).None?
    decreases |ms|
  {
    if j < |ms| - 1 {
      assert ms[..|ms| - 1][j] == ms[j];
      EntriesNoneAfter(ms[..|ms| - 1], all, j);
    }
  }

  lemma {:induction false} CoveredNoneAfter(ds: seq<DocumentRow>, q: nat)
    requires q < |ds| && EntitySet(ds[q]).None?
    ensures Covered(ds).None?
    decreases |ds|
  {
    if q < |ds| - 1 {
      assert ds[..|ds| - 1][q] == ds[q];
      CoveredNoneAfter(ds[..|ds| - 1], q);
    }
  }

  lemma {:induction false} EntriesShape(ms: seq<Json>, all: seq<DocumentRow>)
    requires Entries(ms, all).Some?
    ensures |Entries(ms, all).value| == |ms|
    ensures forall i | 0 <= i < |ms| :: Entry(ms[i], all).Some? && Entries(ms, all).value[i] == Entry(ms[i], all).value
  {
    if ms != [] {
      var init := ms[..|ms| - 1];
      var last := ms[|ms| - 1];
      assert Entries(init, all).Some? && Entry(last, all).Some?;
      var es := Entries(init, all).value;
      assert Entries(ms, all).value == es + [Entry(last, all).value];
      EntriesShape(init, all);
      forall i | 0 <= i < |ms|
        ensures Entry(ms[i], all).Some? && Entries(ms, all).value[i] == Entry(ms[i], all).value
      {
        if i < |init| {
          assert ms[i] == init[i];
        }
      }
    }
  }

  lemma {:induction false} SumProgressBounds(es: seq<MilestoneProgress>)
    requires forall i | 0 <= i < |es| :: 0.0 <= es[i].progress <= 2.0
    ensures 0.0 <= SumProgress(es) <= 2.0 * |es| as real
  {
    if es != [] {
      SumProgressBounds(es[..|es| - 1]);
    }
  }

  /**
   * A successful report has one entry per milestone, in order. An entry
   * counts exactly the roadmap's documents under that milestone id (none
   * for an id that matches no group) with the progress and status those
   * give; the orphan count counts the documents with no milestone; the
   * overall progress is the mean of the entries' progress, between 0 and
   * 2, and 0 for a roadmap with no milestones.
   */
  lemma ProgressReportFacts(docs: map<int, DocumentRow>, nextDocumentId: int, roadmapId: int, roadmap: RoadmapRow, p: RoadmapProgress)
    requires ProgressReport(docs, nextDocumentId, roadmapId, roadmap) == Some(p)
    ensures p.roadmapId == roadmapId && p.goal == roadmap.goal
    ensures |p.milestones| == |roadmap.milestones|
    ensures forall i | 0 <= i < |p.milestones| ::
      EntryOk(roadmap.milestones[i], RoadmapDocs(docs, roadmapId, nextDocumentId), p.milestones[i])
    ensures p.orphanDocumentCount == |Orphans(RoadmapDocs(docs, roadmapId, nextDocumentId))|
    ensures 0.0 <= p.overallProgress <= 2.0
    ensures |roadmap.milestones| == 0 ==> p.overallProgress == 0.0
    ensures |roadmap.milestones| > 0 ==> p.overallProgress == SumProgress(p.milestones) / |roadmap.milestones| as real
  {
    var all := RoadmapDocs(docs, roadmapId, nextDocumentId);
    var ms := roadmap.milestones;
    var es := Entries(ms, all).value;
    assert p.milestones == es;
    EntriesShape(ms, all);
    forall i | 0 <= i < |es|
      ensures EntryOk(ms[i], all, es[i])
    {
      EntryFacts(ms[i], all);
    }
    SumProgressBounds(es);
    if |ms| > 0 {
      MeanBounds(SumProgress(p.milestones), |ms|, p.overallProgress);
    }
  }

  /**
   * What one entry says about its milestone: the milestone is a dict, the
   * entry repeats its id, counts exactly the roadmap's documents under that
   * id (none for an id that matches no group), and carries the progress
   * and status that count gives.
   */
  predicate EntryOk(m: Json, all: seq<DocumentRow>, e: MilestoneProgress) {
    && m.JObj?
    && e.id == Lookup(m.fields, "id", JNull)
    && e.documentCount == |GroupOf(all, KeyOf(Lookup(m.fields, "id", JNull)))|
    && e.progress == Progress(e.documentCount)
    && e.status == Status(e.progress)
    && 0.0 <= e.progress <= 2.0
  }

  lemma EntryFacts(m: Json, all: seq<DocumentRow>)
    requires Entry(m, all).Some?
    ensures EntryOk(m, all, Entry(m, all).value)
  {
    StatusByCount(Entry(m, all).value.documentCount);
  }

  /** The mean of a sum bounded by twice the count lies between 0 and 2. */
  lemma MeanBounds(total: real, n: nat, mean: real)
    requires n > 0 && 0.0 <= total <= 2.0 * n as real
    requires mean == total / n as real
    ensures 0.0 <= mean <= 2.0
  {
  }

  /** Every document of a milestone's group belongs to the roadmap and carries that milestone id. */
  lemma {:induction false} GroupMembers(docs: map<int, DocumentRow>, roadmapId: int, n: int, k: int)
    ensures forall d | d in WithMilestone(RoadmapDocs(docs, roadmapId, n), k) :: d.roadmapId == Some(roadmapId) && d.milestoneId == Some(k)
    ensures forall d | d in Orphans(RoadmapDocs(docs, roadmapId, n)) :: d.roadmapId == Some(roadmapId) && d.milestoneId.None?
  {
    var all := RoadmapDocs(docs, roadmapId, n);
    RoadmapDocsMembers(docs, roadmapId, n);
    WithMilestoneMembers(all, k);
    OrphansMembers(all);
  }

  lemma {:induction false} RoadmapDocsMembers(docs: map<int, DocumentRow>, roadmapId: int, n: int)
    ensures forall d | d in RoadmapDocs(docs, roadmapId, n) :: d.roadmapId == Some(roadmapId)
    decreases if n < 1 then 0 else n
  {
    if n > 1 {
      RoadmapDocsMembers(docs, roadmapId, n - 1);
    }
  }

  lemma {:induction false} WithMilestoneMembers(ds: seq<DocumentRow>, k: int)
    ensures forall d | d in WithMilestone(ds, k) :: d in ds && d.milestoneId == Some(k)
  {
    if ds != [] {
      WithMilestoneMembers(ds[..|ds| - 1], k);
      assert forall d | d in ds[..|ds| - 1] :: d in ds;
    }
  }

  lemma {:induction false} OrphansMembers(ds: seq<DocumentRow>)
    ensures forall d | d in Orphans(ds) :: d in ds && d.milestoneId.None?
  {
    if ds != [] {
      OrphansMembers(ds[..|ds| - 1]);
      assert forall d | d in ds[..|ds| - 1] :: d in ds;
    }
  }

  // ---------------------------------------------------------------------
  // create_roadmap / get_active_roadmap / update_roadmap
  // ---------------------------------------------------------------------

  /** `RoadmapMilestoneSchema` */
  datatype MilestoneSchema = MilestoneSchema(id: int, title: string, description: string, topics: seq<string>)

  /** `RoadmapCreate` */
  datatype RoadmapCreate = RoadmapCreate(goal: string, milestones: seq<MilestoneSchema>, mermaid: Option<string>)

  /** `RoadmapUpdate`: a `None` field is left as it is. */
  datatype RoadmapUpdate = RoadmapUpdate(goal: Option<string>, milestones: Option<seq<MilestoneSchema>>, mermaid: Option<string>)

  /** `model_dump()` of a milestone. */
  function SchemaDump(m: MilestoneSchema): Json {
    JObj(map["id" := JInt(m.id), "title" := JStr(m.title), "description" := JStr(m.description),
             "topics" := JArr(seq(|m.topics|, j requires 0 <= j < |m.topics| => JStr(m.topics[j])))])
  }

  function DumpAll(ms: seq<MilestoneSchema>): seq<Json> {
    seq(|ms|, i requires 0 <= i < |ms| => SchemaDump(ms[i]))
  }

  /** The version of a new roadmap: one more than its parent's when a (truthy) parent id names a stored roadmap, else 1. */
  function NewVersion(rs: map<int, RoadmapRow>, parentRoadmapId: Option<int>): int {
    if parentRoadmapId.Some? && parentRoadmapId.value != 0 && parentRoadmapId.value in rs
    then rs[parentRoadmapId.value].version + 1
    else 1
  }

  /** Every roadmap of the session is inactive; other roadmaps are as they were. */
  function Deactivated(rs: map<int, RoadmapRow>, sessionId: string): map<int, RoadmapRow> {
    map k | k in rs :: if rs[k].sessionId == sessionId && rs[k].isActive then rs[k].(isActive := false) else rs[k]
  }

  /** The tables after `create_roadmap`, and the new id. */
  function RoadmapCreated(t: Tables, sessionId: string, userId: Option<int>, data: RoadmapCreate, parentRoadmapId: Option<int>): (Tables, int) {
    var id := t.nextRoadmapId;
    var row := RoadmapRow(sessionId, if userId.Some? && userId.value != 0 then userId.value else 1,
                          data.goal, DumpAll(data.milestones), data.mermaid,
                          NewVersion(t.roadmaps, parentRoadmapId), parentRoadmapId, true);
    (t.(roadmaps := Deactivated(t.roadmaps, sessionId)[id := row], nextRoadmapId := id + 1), id)
  }

  /** `create_roadmap`: work out the version, deactivate the session's active roadmaps, insert the new one active. */
  method CreateRoadmap(db: Db, sessionId: string, userId: Option<int>, data: RoadmapCreate, parentRoadmapId: Option<int>)
    returns (id: int)
    modifies db
    ensures (db.Snapshot(), id) == RoadmapCreated(old(db.Snapshot()), sessionId, userId, data, parentRoadmapId)
  {
    var version := 1;
    if parentRoadmapId.Some? && parentRoadmapId.value != 0 {
      if parentRoadmapId.value in db.roadmaps {
        version := db.roadmaps[parentRoadmapId.value].version + 1;
      }
    }
    var original := db.roadmaps;
    var rs := original;
    var remaining := original.Keys;
    while remaining != {}
      invariant remaining <= original.Keys
      invariant rs.Keys == original.Keys
      invariant unchanged(db)
      invariant forall k | k in original ::
        rs[k] == if k !in remaining && original[k].sessionId == sessionId && original[k].isActive
                 then original[k].(isActive := false) else original[k]
      decreases remaining
    {
      var k := Pick(remaining);
      if rs[k].sessionId == sessionId && rs[k].isActive {
        rs := rs[k := rs[k].(isActive := false)];
      }
      remaining := remaining - {k};
    }
    assert rs.Keys == Deactivated(original, sessionId).Keys;
    forall k | k in original
      ensures rs[k] == Deactivated(original, sessionId)[k]
    {
    }
    assert rs == Deactivated(original, sessionId);
    id := db.nextRoadmapId;
    var row := RoadmapRow(sessionId, if userId.Some? && userId.value != 0 then userId.value else 1,
                          data.goal, DumpAll(data.milestones), data.mermaid, version, parentRoadmapId, true);
    assert version == NewVersion(original, parentRoadmapId);
    db.roadmaps, db.nextRoadmapId := rs[id := row], id + 1;
  }

  /** Some element of a non-empty set. */
  method Pick(s: set<int>) returns (k: int)
    requires s != {}
    ensures k in s
  {
    ghost var w := Element(s);
    k :| k in s;
  }

  /** The ids of the session's active roadmaps. */
  function ActiveRoadmaps(rs: map<int, RoadmapRow>, sessionId: string): set<int> {
    set k | k in rs && rs[k].sessionId == sessionId && rs[k].isActive
  }

  /**
   * Creation keeps at most one active roadmap per session: afterwards the
   * new roadmap is the session's only active one, every other roadmap of
   * the session keeps its fields but is inactive, and other sessions'
   * roadmaps are untouched. The version follows the parent rule and the
   * user id defaults to 1.
   */
  lemma RoadmapCreatedOk(t: Tables, sessionId: string, userId: Option<int>, data: RoadmapCreate, parentRoadmapId: Option<int>)
    requires TablesOk(t)
    ensures var (t', id) := RoadmapCreated(t, sessionId, userId, data, parentRoadmapId);
      && TablesOk(t')
      && id !in t.roadmaps
      && ActiveRoadmaps(t'.roadmaps, sessionId) == {id}
      && t'.roadmaps[id].version == (if parentRoadmapId.Some? && parentRoadmapId.value != 0 && parentRoadmapId.value in t.roadmaps
                                     then t.roadmaps[parentRoadmapId.value].version + 1 else 1)
      && t'.roadmaps[id].userId == (if userId.Some? && userId.value != 0 then userId.value else 1)
      && t'.roadmaps[id].milestones == DumpAll(data.milestones)
      && (forall k | k in t.roadmaps && t.roadmaps[k].sessionId != sessionId :: t'.roadmaps[k] == t.roadmaps[k])
      && (forall k | k in t.roadmaps && t.roadmaps[k].sessionId == sessionId :: t'.roadmaps[k] == t.roadmaps[k].(isActive := false))
      && t' == t.(roadmaps := t'.roadmaps, nextRoadmapId := t'.nextRoadmapId)
  {
    var (t', id) := RoadmapCreated(t, sessionId, userId, data, parentRoadmapId);
    assert id !in t.roadmaps;
    assert ActiveRoadmaps(t'.roadmaps, sessionId) == {id} by {
      forall k | k in ActiveRoadmaps(t'.roadmaps, sessionId)
        ensures k == id
      {
      }
      assert id in ActiveRoadmaps(t'.roadmaps, sessionId);
    }
    assert RoadmapsOk(t'.roadmaps, t'.nextRoadmapId);
  }

  /** `get_active_roadmap`: none, the one, or an error when several are active (`scalar_one_or_none`). */
  method GetActiveRoadmap(db: Db, sessionId: string) returns (r: Answer<Option<int>>)
    ensures ActiveRoadmaps(db.roadmaps, sessionId) == {} ==> r == Answered(None)
    ensures |ActiveRoadmaps(db.roadmaps, sessionId)| == 1 ==> r.Answered? && r.value.Some? && ActiveRoadmaps(db.roadmaps, sessionId) == {r.value.value}
    ensures |ActiveRoadmaps(db.roadmaps, sessionId)| > 1 ==> r.Raised?
  {
    var active := ActiveRoadmaps(db.roadmaps, sessionId);
    if active == {} {
      return Answered(None);
    }
    var k := Pick(active);
    if active - {k} != {} {
      assert |active| > 1 by {
        assert |active - {k}| != 0;
        assert active == (active - {k}) + {k};
      }
      return Raised;
    }
    assert active == {k};
    r := Answered(Some(k));
  }

  /** Over a valid store no session has two active roadmaps, so `get_active_roadmap` never raises. */
  lemma ActiveRoadmapUnique(t: Tables, sessionId: string)
    requires RoadmapsOk(t.roadmaps, t.nextRoadmapId)
    ensures |ActiveRoadmaps(t.roadmaps, sessionId)| <= 1
  {
    var a := ActiveRoadmaps(t.roadmaps, sessionId);
    if a != {} {
      var k := Element(a);
      forall x | x in a
        ensures x == k
      {
      }
      assert a == {k};
    }
  }

  /** The tables after `update_roadmap`, or `None` for a missing id. */
  function RoadmapUpdated(t: Tables, roadmapId: int, upd: RoadmapUpdate): Option<Tables> {
    if roadmapId !in t.roadmaps then None
    else
      var r := t.roadmaps[roadmapId];
      var r' := r.(goal := if upd.goal.Some? then upd.goal.value else r.goal,
                   milestones := if upd.milestones.Some? then DumpAll(upd.milestones.value) else r.milestones,
                   mermaid := if upd.mermaid.Some? then upd.mermaid else r.mermaid);
      Some(t.(roadmaps := t.roadmaps[roadmapId := r']))
  }

  /** `update_roadmap` */
  method UpdateRoadmap(db: Db, roadmapId: int, upd: RoadmapUpdate) returns (r: Option<RoadmapRow>)
    modifies db
    ensures RoadmapUpdated(old(db.Snapshot()), roadmapId, upd).None? ==> r.None? && db.Snapshot() == old(db.Snapshot())
    ensures RoadmapUpdated(old(db.Snapshot()), roadmapId, upd).Some? ==>
      db.Snapshot() == RoadmapUpdated(old(db.Snapshot()), roadmapId, upd).value && r == Some(db.roadmaps[roadmapId])
  {
    if roadmapId !in db.roadmaps {
      return None;
    }
    var row := db.roadmaps[roadmapId];
    if upd.goal.Some? {
      row := row.(goal := upd.goal.value);
    }
    if upd.milestones.Some? {
      row := row.(milestones := DumpAll(upd.milestones.value));
    }
    if upd.mermaid.Some? {
      row := row.(mermaid := upd.mermaid);
    }
    db.roadmaps := db.roadmaps[roadmapId := row];
    r := Some(row);
  }

  /**
   * An update of a missing id gives `None`; otherwise each given field is
   * replaced and each `None` field kept, while the version, the activation
   * and the owner stay; table invariants are kept.
   */
  lemma RoadmapUpdatedOk(t: Tables, roadmapId: int, upd: RoadmapUpdate)
    requires TablesOk(t)
    ensures RoadmapUpdated(t, roadmapId, upd).None? <==> roadmapId !in t.roadmaps
    ensures RoadmapUpdated(t, roadmapId, upd).Some? ==>
      var t' := RoadmapUpdated(t, roadmapId, upd).value;
      var before := t.roadmaps[roadmapId];
      var after := t'.roadmaps[roadmapId];
      && TablesOk(t')
      && after.goal == (if upd.goal.Some? then upd.goal.value else before.goal)
      && after.milestones == (if upd.milestones.Some? then DumpAll(upd.milestones.value) else before.milestones)
      && after.mermaid == (if upd.mermaid.Some? then upd.mermaid else before.mermaid)
      && after.version == before.version && after.isActive == before.isActive && after.sessionId == before.sessionId
      && (forall k | k in t.roadmaps && k != roadmapId :: t'.roadmaps[k] == t.roadmaps[k])
  {
    if roadmapId in t.roadmaps {
      var t' := RoadmapUpdated(t, roadmapId, upd).value;
      assert RoadmapsOk(t'.roadmaps, t'.nextRoadmapId);
    }
  }
}
