/**
 * The experiment service: the in-memory projection of one experiment
 * document and of its collection of stage sub-documents.
 *
 * The document store is outside the model. A subscription is represented by
 * the handle the store returns for it, and a snapshot by a plain value that
 * the store hands to the service's callbacks. What the service does to its
 * subscriptions (subscribe, unsubscribe) and its clearing of cached state are
 * recorded, in order, in the `effects` log.
 */
module ExperimentService {
  import opened Wrappers

  // ---------------------------------------------------------------------
  // Values
  // ---------------------------------------------------------------------

  /** A stage configuration as stored in its sub-document; only its name is read here. */
  datatype StageConfig = StageConfig(kind: string, name: string)

  /** One document of the stage collection: its id and its data. */
  datatype StageDoc = StageDoc(id: string, config: StageConfig)

  datatype ChangeType = Added | Modified | Removed

  /** An entry of `docChanges()`: the kind of change and the document it concerns. */
  datatype DocChange = DocChange(changeType: ChangeType, doc: StageDoc)

  /** A snapshot of the stage collection: the changes since the last one, and all documents. */
  datatype StagesSnapshot = StagesSnapshot(changes: seq<DocChange>, docs: seq<StageDoc>)

  /** The fields of the experiment document that this service reads. */
  datatype ExperimentData = ExperimentData(id: Option<string>, stageIds: Option<seq<string>>)

  /** A snapshot of the experiment document: its id, and its data unless it does not exist. */
  datatype ExperimentDoc = ExperimentDoc(id: string, data: Option<ExperimentData>)

  /** The experiment record `{id: doc.id, ...doc.data()}`. */
  datatype Experiment = Experiment(id: string, stageIds: Option<seq<string>>)

  /** An unsubscribe function returned by the store for one subscription. */
  datatype Handle = Handle(token: nat)

  datatype Target = ExperimentDocTarget(experimentId: string) | StageCollectionTarget(experimentId: string)

  /** What the service does to the world, in order. */
  datatype Effect =
    | Subscribed(handle: Handle, target: Target)
    | Unsubscribed(handle: Handle)
    | StateCleared

  // ---------------------------------------------------------------------
  // Specification functions and their properties
  // ---------------------------------------------------------------------

  /** The record the experiment callback stores: a data `id` field overrides the document id. */
  function ExperimentOf(doc: ExperimentDoc): (e: Experiment)
    ensures doc.data.None? ==> e == Experiment(doc.id, None)
    ensures doc.data.Some? ==> e.stageIds == doc.data.value.stageIds
    ensures doc.data.Some? && doc.data.value.id.Some? ==> e.id == doc.data.value.id.value
    ensures doc.data.Some? && doc.data.value.id.None? ==> e.id == doc.id
  {
    match doc.data
    case None => Experiment(doc.id, None)
    case Some(d) => Experiment(d.id.GetOr(doc.id), d.stageIds)
  }

  /** `experiment?.stageIds ?? []` */
  function StageIdsOf(e: Option<Experiment>): seq<string> {
    if e.Some? && e.value.stageIds.Some? then e.value.stageIds.value else []
  }

  /** The stages list: the configs of the ids in `ids` that are in `m`, in the order of `ids`. */
  function StagesOf(ids: seq<string>, m: map<string, StageConfig>): seq<StageConfig> {
    if ids == [] then []
    else
      var last := ids[|ids| - 1];
      StagesOf(ids[..|ids| - 1], m) + (if last in m then [m[last]] else [])
  }

  /** The projection distributes over concatenation: it keeps the order of the ids. */
  lemma {:induction false} StagesOfAppend(a: seq<string>, b: seq<string>, m: map<string, StageConfig>)
    ensures StagesOf(a + b, m) == StagesOf(a, m) + StagesOf(b, m)
    decreases |b|
  {
    if b == [] {
      assert a + b == a;
    } else {
      var b' := b[..|b| - 1];
      assert (a + b)[..|a + b| - 1] == a + b';
      StagesOfAppend(a, b', m);
    }
  }

  /** One id contributes its config if it is loaded, and nothing otherwise. */
  lemma StagesOfSingleton(id: string, m: map<string, StageConfig>)
    ensures StagesOf([id], m) == if id in m then [m[id]] else []
  {
    assert [id][..0] == [];
  }

  /** The stages list is never longer than the id list, and equally long iff every id is loaded. */
  lemma {:induction false} StagesOfLength(ids: seq<string>, m: map<string, StageConfig>)
    ensures |StagesOf(ids, m)| <= |ids|
    ensures |StagesOf(ids, m)| == |ids| <==> forall i :: 0 <= i < |ids| ==> ids[i] in m
  {
    if ids != [] {
      var n := |ids| - 1;
      var ids' := ids[..n];
      StagesOfLength(ids', m);
      assert (forall i :: 0 <= i < |ids| ==> ids[i] in m) <==>
             (forall i :: 0 <= i < |ids'| ==> ids'[i] in m) && ids[n] in m
      by {
        assert forall i :: 0 <= i < |ids'| ==> ids'[i] == ids[i];
      }
    }
  }

  /** A config is listed iff some id of the list is loaded with that config: no ghost entries. */
  lemma {:induction false} StagesOfMembers(ids: seq<string>, m: map<string, StageConfig>, c: StageConfig)
    ensures c in StagesOf(ids, m) <==> exists i :: 0 <= i < |ids| && ids[i] in m && m[ids[i]] == c
  {
    if ids != [] {
      var ids' := ids[..|ids| - 1];
      StagesOfMembers(ids', m, c);
      if exists i :: 0 <= i < |ids| && ids[i] in m && m[ids[i]] == c {
        var i :| 0 <= i < |ids| && ids[i] in m && m[ids[i]] == c;
        if i < |ids| - 1 { assert ids'[i] == ids[i]; }
      }
      if exists i :: 0 <= i < |ids'| && ids'[i] in m && m[ids'[i]] == c {
        var i :| 0 <= i < |ids'| && ids'[i] in m && m[ids'[i]] == c;
        assert ids[i] == ids'[i];
      }
    }
  }

  /** The stages list only depends on the map entries for the listed ids. */
  lemma {:induction false} StagesOfLocal(ids: seq<string>, m1: map<string, StageConfig>, m2: map<string, StageConfig>)
    requires forall i :: 0 <= i < |ids| ==> (ids[i] in m1 <==> ids[i] in m2)
    requires forall i :: 0 <= i < |ids| && ids[i] in m1 ==> m1[ids[i]] == m2[ids[i]]
    ensures StagesOf(ids, m1) == StagesOf(ids, m2)
  {
    if ids != [] {
      var ids' := ids[..|ids| - 1];
      forall i | 0 <= i < |ids'| ensures ids'[i] == ids[i] { }
      StagesOfLocal(ids', m1, m2);
      assert ids[|ids| - 1] in m1 <==> ids[|ids| - 1] in m2;
    }
  }

  /** `ids.indexOf(id)`: the first index of `id`, or -1 when it is absent. */
  function IndexOf(ids: seq<string>, id: string): (r: int)
    ensures r == -1 <==> id !in ids
    ensures r != -1 ==> 0 <= r < |ids| && ids[r] == id
    ensures r != -1 ==> forall j :: 0 <= j < r ==> ids[j] != id
  {
    if ids == [] then -1
    else if ids[0] == id then 0
    else
      var r := IndexOf(ids[1..], id);
      assert forall j :: 0 <= j < |ids| - 1 ==> ids[1..][j] == ids[j + 1];
      if r == -1 then -1 else r + 1
  }

  /** The documents the stage callback writes: the changed ones, or all of them when nothing changed. */
  function ChangedDocs(snap: StagesSnapshot): (docs: seq<StageDoc>)
    ensures |snap.changes| > 0 ==> |docs| == |snap.changes| && forall i :: 0 <= i < |docs| ==> docs[i] == snap.changes[i].doc
    ensures |snap.changes| == 0 ==> docs == snap.docs
  {
    if |snap.changes| == 0 then snap.docs
    else seq(|snap.changes|, i requires 0 <= i < |snap.changes| => snap.changes[i].doc)
  }

  /** `stageConfigMap[doc.id] = doc.data()` for each document in turn. */
  function ApplyDocs(m: map<string, StageConfig>, docs: seq<StageDoc>): map<string, StageConfig> {
    if docs == [] then m
    else
      var last := docs[|docs| - 1];
      ApplyDocs(m, docs[..|docs| - 1])[last.id := last.config]
  }

  function DocIds(docs: seq<StageDoc>): set<string> {
    set i | 0 <= i < |docs| :: docs[i].id
  }

  /** Writing the documents into `m` is overriding `m` by the documents written into an empty map. */
  lemma {:induction false} ApplyDocsOverrides(m: map<string, StageConfig>, docs: seq<StageDoc>)
    ensures ApplyDocs(m, docs) == m + ApplyDocs(map[], docs)
  {
    if docs != [] {
      ApplyDocsOverrides(m, docs[..|docs| - 1]);
    }
  }

  /** The ids of a non-empty document list: those of its prefix and that of its last document. */
  lemma DocIdsSnoc(docs: seq<StageDoc>)
    requires docs != []
    ensures DocIds(docs) == DocIds(docs[..|docs| - 1]) + {docs[|docs| - 1].id}
  {
    var n := |docs| - 1;
    var docs' := docs[..n];
    forall x | x in DocIds(docs) ensures x in DocIds(docs') + {docs[n].id} {
      var i :| 0 <= i < |docs| && docs[i].id == x;
      if i < n { assert docs'[i] == docs[i]; }
    }
    forall x | x in DocIds(docs') ensures x in DocIds(docs) {
      var i :| 0 <= i < n && docs'[i].id == x;
      assert docs[i] == docs'[i];
    }
  }

  /** Exactly the documents' ids are added to the map. */
  lemma {:induction false} ApplyDocsKeys(m: map<string, StageConfig>, docs: seq<StageDoc>)
    ensures ApplyDocs(m, docs).Keys == m.Keys + DocIds(docs)
  {
    if docs != [] {
      ApplyDocsKeys(m, docs[..|docs| - 1]);
      DocIdsSnoc(docs);
    }
  }

  /** Each document's id gets the config of the last document carrying that id. */
  lemma {:induction false} ApplyDocsWrites(m: map<string, StageConfig>, docs: seq<StageDoc>)
    ensures forall i :: 0 <= i < |docs| && (forall j :: i < j < |docs| ==> docs[j].id != docs[i].id) ==>
              docs[i].id in ApplyDocs(m, docs) && ApplyDocs(m, docs)[docs[i].id] == docs[i].config
  {
    if docs != [] {
      var n := |docs| - 1;
      var docs' := docs[..n];
      var prev := ApplyDocs(m, docs');
      ApplyDocsWrites(m, docs');
      assert ApplyDocs(m, docs) == prev[docs[n].id := docs[n].config];
      forall i | 0 <= i < |docs| && (forall j :: i < j < |docs| ==> docs[j].id != docs[i].id)
        ensures docs[i].id in ApplyDocs(m, docs) && ApplyDocs(m, docs)[docs[i].id] == docs[i].config
      {
        if i < n {
          assert docs'[i] == docs[i];
          assert docs[n].id != docs[i].id;
          assert forall j :: i < j < |docs'| ==> docs'[j] == docs[j];
          assert docs[i].id in prev && prev[docs[i].id] == docs[i].config;
        }
      }
    }
  }

  /** Entries for ids that no document carries are left as they were, and none is deleted. */
  lemma ApplyDocsKeepsOthers(m: map<string, StageConfig>, docs: seq<StageDoc>, k: string)
    requires k in m && k !in DocIds(docs)
    ensures k in ApplyDocs(m, docs) && ApplyDocs(m, docs)[k] == m[k]
  {
    ApplyDocsOverrides(m, docs);
    ApplyDocsKeys(map[], docs);
  }

  /** What the stage callback does to the map. */
  function HandleStagesSnapshot(m: map<string, StageConfig>, snap: StagesSnapshot): map<string, StageConfig> {
    ApplyDocs(m, ChangedDocs(snap))
  }

  /** Applying the same stage snapshot twice gives the same map, and so the same stages, as once. */
  lemma HandleStagesSnapshotIdempotent(m: map<string, StageConfig>, snap: StagesSnapshot, ids: seq<string>)
    ensures HandleStagesSnapshot(HandleStagesSnapshot(m, snap), snap) == HandleStagesSnapshot(m, snap)
    ensures StagesOf(ids, HandleStagesSnapshot(HandleStagesSnapshot(m, snap), snap)) == StagesOf(ids, HandleStagesSnapshot(m, snap))
  {
    var docs := ChangedDocs(snap);
    var w := ApplyDocs(map[], docs);
    ApplyDocsOverrides(m, docs);
    ApplyDocsOverrides(m + w, docs);
    assert (m + w) + w == m + w;
  }

  /** A removed document is written back like any other change: the callback never deletes. */
  lemma RemovedChangeIsWritten(m: map<string, StageConfig>, d: StageDoc)
    ensures HandleStagesSnapshot(m, StagesSnapshot([DocChange(Removed, d)], [])) == m[d.id := d.config]
  {
    var docs := ChangedDocs(StagesSnapshot([DocChange(Removed, d)], []));
    assert docs == [d];
    assert docs[..0] == [];
    assert ApplyDocs(m, docs) == ApplyDocs(m, [])[d.id := d.config];
  }

  // ---------------------------------------------------------------------
  // Decimal rendering, for the numbered stage name
  // ---------------------------------------------------------------------

  predicate IsDigit(c: char) {
    '0' <= c <= '9'
  }

  /** The decimal representation of `n`, as a template literal renders a number: no leading zero. */
  function NatToDecimal(n: nat): (s: string)
    ensures |s| >= 1 && forall i :: 0 <= i < |s| ==> IsDigit(s[i])
    ensures s[0] == '0' ==> s == "0"
  {
    if n < 10 then [('0' as int + n) as char]
    else NatToDecimal(n / 10) + [('0' as int + n % 10) as char]
  }

  /** The value of a string of decimal digits. */
  function DecimalValue(s: string): nat
    requires forall i :: 0 <= i < |s| ==> IsDigit(s[i])
  {
    if s == [] then 0
    else
      assert IsDigit(s[|s| - 1]);
      DecimalValue(s[..|s| - 1]) * 10 + (s[|s| - 1] as int - '0' as int)
  }

  /** Rendering is faithful: reading the digits back gives the number. */
  lemma {:induction false} DecimalRoundTrip(n: nat)
    ensures DecimalValue(NatToDecimal(n)) == n
  {
    if n >= 10 {
      DecimalRoundTrip(n / 10);
      var s := NatToDecimal(n);
      assert s[..|s| - 1] == NatToDecimal(n / 10);
    }
  }

  // ---------------------------------------------------------------------
  // The service
  // ---------------------------------------------------------------------

  function Releases(hs: seq<Handle>): (r: seq<Effect>)
    ensures |r| == |hs| && forall i :: 0 <= i < |hs| ==> r[i] == Unsubscribed(hs[i])
  {
    seq(|hs|, i requires 0 <= i < |hs| => Unsubscribed(hs[i]))
  }

  class ExperimentService {
    var experiment: Option<Experiment>
    var stageConfigMap: map<string, StageConfig>
    var unsubscribe: seq<Handle>
    var isExperimentLoading: bool
    var isStageConfigsLoading: bool
    var effects: seq<Effect>

    constructor ()
      ensures experiment == None && stageConfigMap == map[] && unsubscribe == []
      ensures !isExperimentLoading && !isStageConfigsLoading && effects == []
    {
      experiment := None;
      stageConfigMap := map[];
      unsubscribe := [];
      isExperimentLoading := false;
      isStageConfigsLoading := false;
      effects := [];
    }

    /** Loading while either subscription has not delivered since the last (re)load. */
    function IsLoading(): bool
      reads this
    {
      isExperimentLoading || isStageConfigsLoading
    }

    /** The `isLoading` setter: both flags take the value, so `IsLoading()` reads it back. */
    method SetLoading(value: bool)
      modifies this
      ensures isExperimentLoading == value && isStageConfigsLoading == value
      ensures IsLoading() == value
      ensures experiment == old(experiment) && stageConfigMap == old(stageConfigMap)
      ensures unsubscribe == old(unsubscribe) && effects == old(effects)
    {
      isExperimentLoading := value;
      isStageConfigsLoading := value;
    }

    function StageIds(): seq<string>
      reads this
    {
      StageIdsOf(experiment)
    }

    /** The `stages` getter. */
    method Stages() returns (stages: seq<StageConfig>)
      ensures stages == StagesOf(StageIds(), stageConfigMap)
      ensures |stages| <= |StageIds()|
    {
      var ids := StageIds();
      stages := [];
      for i := 0 to |ids|
        invariant stages == StagesOf(ids[..i], stageConfigMap)
      {
        var id := ids[i];
        if id in stageConfigMap {
          stages := stages + [stageConfigMap[id]];
        }
        assert ids[..i + 1][..i] == ids[..i];
      }
      assert ids[..|ids|] == ids;
      StagesOfLength(ids, stageConfigMap);
    }

    /** `getStage`: the loaded config of the id, if any. */
    function GetStage(stageId: string): (r: Option<StageConfig>)
      reads this
      ensures r.Some? <==> stageId in stageConfigMap
      ensures r.Some? ==> r.value == stageConfigMap[stageId]
    {
      if stageId in stageConfigMap then Some(stageConfigMap[stageId]) else None
    }

    /** `getStageIndex`: the first position of the id in the stage order, or -1. */
    function GetStageIndex(stageId: string): (r: int)
      reads this
      ensures r == -1 <==> stageId !in StageIds()
      ensures r != -1 ==> 0 <= r < |StageIds()| && StageIds()[r] == stageId
      ensures r != -1 ==> forall j :: 0 <= j < r ==> StageIds()[j] != stageId
    {
      IndexOf(StageIds(), stageId)
    }

    /**
     * `getNextStageId`: the id after the first occurrence of `stageId`; none
     * when that occurrence is the last id, and none when `stageId` is absent.
     */
    function GetNextStageId(stageId: string): (r: Option<string>)
      reads this
      ensures stageId !in StageIds() ==> r == None
      ensures forall i :: 0 <= i < |StageIds()| && StageIds()[i] == stageId && (forall j :: 0 <= j < i ==> StageIds()[j] != stageId) ==>
                r == (if i < |StageIds()| - 1 then Some(StageIds()[i + 1]) else None)
    {
      var ids := StageIds();
      var currentIndex := GetStageIndex(stageId);
      if currentIndex >= 0 && currentIndex < |ids| - 1 then Some(ids[currentIndex + 1]) else None
    }

    /**
     * `getStageName`: "Loading..." while loading; otherwise the stage's name,
     * after "<position>. " when numbered. An unloaded stage renders as
     * "undefined", and an unknown id is numbered 0.
     */
    function GetStageName(stageId: string, withNumber: bool): (r: string)
      reads this
      ensures IsLoading() ==> r == "Loading..."
      ensures !IsLoading() && !withNumber && stageId in stageConfigMap ==> r == stageConfigMap[stageId].name
      ensures !IsLoading() && !withNumber && stageId !in stageConfigMap ==> r == "undefined"
      ensures !IsLoading() && withNumber ==>
                exists digits: string :: r == digits + ". " + (if stageId in stageConfigMap then stageConfigMap[stageId].name else "undefined")
                  && (forall i :: 0 <= i < |digits| ==> IsDigit(digits[i]))
                  && |digits| >= 1 && (digits[0] == '0' ==> digits == "0")
                  && DecimalValue(digits) == GetStageIndex(stageId) + 1
    {
      if IsLoading() then "Loading..."
      else
        var stageNum := if withNumber then NatToDecimal(GetStageIndex(stageId) + 1) + ". " else "";
        var name := if stageId in stageConfigMap then stageConfigMap[stageId].name else "undefined";
        if withNumber then
          DecimalRoundTrip(GetStageIndex(stageId) + 1);
          assert stageNum + name == NatToDecimal(GetStageIndex(stageId) + 1) + ". " + name;
          stageNum + name
        else stageNum + name
    }

    /** Releases every stored subscription, in order, and only then clears the cached state. */
    method UnsubscribeAll()
      modifies this
      ensures effects == old(effects) + Releases(old(unsubscribe)) + [StateCleared]
      ensures unsubscribe == [] && stageConfigMap == map[] && experiment == None
      ensures isExperimentLoading == old(isExperimentLoading) && isStageConfigsLoading == old(isStageConfigsLoading)
    {
      var handles := unsubscribe;
      for i := 0 to |handles|
        invariant unsubscribe == handles && experiment == old(experiment) && stageConfigMap == old(stageConfigMap)
        invariant isExperimentLoading == old(isExperimentLoading) && isStageConfigsLoading == old(isStageConfigsLoading)
        invariant effects == old(effects) + Releases(handles[..i])
      {
        effects := effects + [Unsubscribed(handles[i])];
        assert Releases(handles[..i + 1]) == Releases(handles[..i]) + [Unsubscribed(handles[i])];
      }
      assert handles[..|handles|] == handles;
      unsubscribe := [];
      stageConfigMap := map[];
      experiment := None;
      effects := effects + [StateCleared];
    }

    /**
     * `loadExperiment`: drops the current subscriptions and state, marks
     * everything as loading, and subscribes to the experiment document and
     * to its stage collection, storing exactly those two handles.
     */
    method LoadExperiment(id: string, experimentHandle: Handle, stagesHandle: Handle)
      modifies this
      ensures unsubscribe == [experimentHandle, stagesHandle]
      ensures effects == old(effects) + Releases(old(unsubscribe)) +
                [StateCleared, Subscribed(experimentHandle, ExperimentDocTarget(id)),
                 Subscribed(stagesHandle, StageCollectionTarget(id))]
      ensures experiment == None && stageConfigMap == map[]
      ensures isExperimentLoading && isStageConfigsLoading
    {
      UnsubscribeAll();
      SetLoading(true);
      unsubscribe := unsubscribe + [experimentHandle];
      effects := effects + [Subscribed(experimentHandle, ExperimentDocTarget(id))];
      unsubscribe := unsubscribe + [stagesHandle];
      effects := effects + [Subscribed(stagesHandle, StageCollectionTarget(id))];
    }

    /** `updateForCurrentRoute`: reloads only when the route names another experiment. */
    method UpdateForCurrentRoute(routeId: string, experimentHandle: Handle, stagesHandle: Handle)
      modifies this
      ensures old(experiment).Some? && old(experiment).value.id == routeId ==>
                experiment == old(experiment) && stageConfigMap == old(stageConfigMap) &&
                unsubscribe == old(unsubscribe) && effects == old(effects) &&
                isExperimentLoading == old(isExperimentLoading) && isStageConfigsLoading == old(isStageConfigsLoading)
      ensures !(old(experiment).Some? && old(experiment).value.id == routeId) ==>
                unsubscribe == [experimentHandle, stagesHandle] &&
                effects == old(effects) + Releases(old(unsubscribe)) +
                  [StateCleared, Subscribed(experimentHandle, ExperimentDocTarget(routeId)),
                   Subscribed(stagesHandle, StageCollectionTarget(routeId))] &&
                experiment == None && stageConfigMap == map[] && isExperimentLoading && isStageConfigsLoading
    {
      if experiment.None? || routeId != experiment.value.id {
        LoadExperiment(routeId, experimentHandle, stagesHandle);
      }
    }

    /** The experiment-document callback. */
    method OnExperimentSnapshot(doc: ExperimentDoc)
      modifies this
      ensures experiment == Some(ExperimentOf(doc)) && !isExperimentLoading
      ensures stageConfigMap == old(stageConfigMap) && unsubscribe == old(unsubscribe)
      ensures effects == old(effects) && isStageConfigsLoading == old(isStageConfigsLoading)
    {
      experiment := Some(ExperimentOf(doc));
      isExperimentLoading := false;
    }

    /** The stage-collection callback: writes the changed (or else all) documents into the map. */
    method OnStagesSnapshot(snap: StagesSnapshot)
      modifies this
      ensures stageConfigMap == HandleStagesSnapshot(old(stageConfigMap), snap)
      ensures !isStageConfigsLoading
      ensures experiment == old(experiment) && unsubscribe == old(unsubscribe)
      ensures effects == old(effects) && isExperimentLoading == old(isExperimentLoading)
    {
      var changedDocs := ChangedDocs(snap);
      for i := 0 to |changedDocs|
        invariant stageConfigMap == ApplyDocs(old(stageConfigMap), changedDocs[..i])
        invariant experiment == old(experiment) && unsubscribe == old(unsubscribe)
        invariant effects == old(effects) && isExperimentLoading == old(isExperimentLoading)
        invariant isStageConfigsLoading == old(isStageConfigsLoading)
      {
        var doc := changedDocs[i];
        assert changedDocs[..i + 1][..i] == changedDocs[..i];
        stageConfigMap := stageConfigMap[doc.id := doc.config];
      }
      assert changedDocs[..|changedDocs|] == changedDocs;
      isStageConfigsLoading := false;
    }
  }

  /**
   * Once both callbacks have delivered after a load, the service has stopped
   * loading, and the stages list has one entry per stage id exactly when
   * every stage id is loaded.
   */
  method LoadScenario(s: ExperimentService, id: string, h1: Handle, h2: Handle, doc: ExperimentDoc, snap: StagesSnapshot)
    returns (stages: seq<StageConfig>)
    modifies s
    ensures !s.IsLoading()
    ensures s.unsubscribe == [h1, h2]
    ensures |stages| == |s.StageIds()| <==> forall i :: 0 <= i < |s.StageIds()| ==> s.StageIds()[i] in s.stageConfigMap
  {
    s.LoadExperiment(id, h1, h2);
    s.OnExperimentSnapshot(doc);
    s.OnStagesSnapshot(snap);
    stages := s.Stages();
    StagesOfLength(s.StageIds(), s.stageConfigMap);
  }
}
