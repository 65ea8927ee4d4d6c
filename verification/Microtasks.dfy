/** The microtask planner: which overrides it accepts and the payload it builds from them, and the
    gate and the duplicate guard that later read that payload. */
module Microtasks {
  import opened Wrappers
  import opened Domain
  import Json

  const SUBMITTED_BY := "jmcp.microtask_planner"

  /** The fields of a catalogue entry that reach the payload. */
  datatype Definition = Definition(
    id: string, kind: string, subject: string, workOrderKind: string,
    resourceIntent: Json.Value, safety: Json.Value,
    maxStages: nat, timeoutSecs: nat,
    acceptsRepo: bool, defaultConcept: Option<string>, acceptsModelRoot: bool)

  datatype Overrides = Overrides(
    runId: Option<string>, repo: Option<string>, concept: Option<string>, modelRoot: Option<string>,
    live: Option<bool>, allowNetwork: Option<bool>, allowGpu: Option<bool>, allowDurableMutation: Option<bool>,
    maxStages: Option<nat>, timeoutSecs: Option<nat>, metadata: Option<Json.Value>)

  datatype Rejection = Guarded(field: string) | OutOfBounds(field: string)

  predicate Guards(flag: Option<bool>) {
    flag == Some(true)
  }

  predicate WithinBound(value: Option<nat>, cap: nat) {
    value.None? || 1 <= value.value <= cap
  }

  /** The repository an entry works on; it becomes the payload's `cwd`. */
  function MicrotaskRepo(d: Definition, repo: Option<string>): Option<string> {
    if repo.Some? then repo else if d.acceptsRepo then Some(".") else None
  }

  function MicrotaskConcept(d: Definition, concept: Option<string>): Option<string> {
    if concept.Some? then concept else d.defaultConcept
  }

  function MicrotaskRoots(d: Definition, root: Option<string>, local: seq<string>): seq<string> {
    if !d.acceptsModelRoot then [] else if root.Some? then [root.value] else local
  }

  function OptionalString(v: Option<string>): Json.Value {
    if v.Some? then Json.Str(v.value) else Json.Null
  }

  function Strings(texts: seq<string>): seq<Json.Value> {
    seq(|texts|, i requires 0 <= i < |texts| => Json.Str(texts[i]))
  }

  function Inputs(repo: Option<string>, concept: Option<string>, roots: seq<string>): map<string, Json.Value> {
    (if repo.Some? then map["repo" := Json.Str(repo.value)] else map[]) +
    (if concept.Some? then map["concept" := Json.Str(concept.value)] else map[]) +
    (if roots != [] then map["model_roots" := Json.Arr(Strings(roots))] else map[])
  }

  function Metadata(d: Definition, parent: Option<string>, overrides: Option<Json.Value>): map<string, Json.Value> {
    map["microtask" := Json.Bool(true),
        "microtask_id" := Json.Str(d.id),
        "microtask_kind" := Json.Str(d.kind),
        "parent_action_id" := OptionalString(parent),
        "submitted_by" := Json.Str(SUBMITTED_BY),
        "safety" := d.safety] +
    (if overrides.Some? then map["overrides" := overrides.value] else map[])
  }

  /** What is read from outside the call: the prompt text and the local model roots. */
  datatype Surroundings = Surroundings(prompt: string, localRoots: seq<string>)

  /** The members every payload has. */
  function Base(d: Definition, prompt: string, maxStages: nat, timeoutSecs: nat, inputs: map<string, Json.Value>,
                metadata: map<string, Json.Value>, runId: string): map<string, Json.Value> {
    map["prompt" := Json.Str(prompt),
        "live" := Json.Bool(false),
        "evidence_oriented" := Json.Bool(true),
        "allow_network" := Json.Bool(false),
        "allow_gpu" := Json.Bool(false),
        "allow_external_durable_mutation" := Json.Bool(false),
        "max_stages" := Json.Number(maxStages),
        "timeout_secs" := Json.Number(timeoutSecs),
        "resource_intent" := d.resourceIntent,
        "inputs" := Json.Obj(inputs),
        "metadata" := Json.Obj(metadata),
        "run_id" := Json.Str(runId)]
  }

  function Payload(d: Definition, ov: Overrides, parent: Option<string>, at: Surroundings)
    : Result<Json.Value, Rejection>
  {
    if Guards(ov.live) then Failure(Guarded("live"))
    else if Guards(ov.allowNetwork) then Failure(Guarded("allowNetwork"))
    else if Guards(ov.allowGpu) then Failure(Guarded("allowGpu"))
    else if Guards(ov.allowDurableMutation) then Failure(Guarded("allowExternalDurableMutation"))
    else if !WithinBound(ov.maxStages, d.maxStages) then Failure(OutOfBounds("maxStages"))
    else if !WithinBound(ov.timeoutSecs, d.timeoutSecs) then Failure(OutOfBounds("timeoutSecs"))
    else
      var repo := MicrotaskRepo(d, ov.repo);
      var concept := MicrotaskConcept(d, ov.concept);
      var roots := MicrotaskRoots(d, ov.modelRoot, at.localRoots);
      var runId := if ov.runId.Some? then ov.runId.value else "jmcp-microtask-" + d.id;
      Success(Json.Obj(
        Base(d, at.prompt,
             if ov.maxStages.Some? then ov.maxStages.value else d.maxStages,
             if ov.timeoutSecs.Some? then ov.timeoutSecs.value else d.timeoutSecs,
             Inputs(repo, concept, roots), Metadata(d, parent, ov.metadata), runId) +
        (if repo.Some? then map["cwd" := Json.Str(repo.value)] else map[])))
  }

  // ----- What the dispatcher reads -----

  predicate IsMicrotask(task: Task) {
    Json.AsBool(Json.Pointer(task.payload, "metadata", "microtask")) == Some(true)
  }

  /** The part of the dispatch gate that looks at the task: evidence-only and not live. */
  predicate GateOpen(task: Task) {
    && IsMicrotask(task)
    && Json.AsBool(Json.Get(task.payload, "evidence_oriented")) == Some(true)
    && Json.AsBool(Json.Get(task.payload, "live")) != Some(true)
  }

  predicate IsAutoDispatchable(o: OrderData) {
    o.status == Status.Submitted && GateOpen(o.task)
  }

  function MicrotaskId(task: Task): Option<string> {
    Json.AsString(Json.Pointer(task.payload, "metadata", "microtask_id"))
  }

  function Cwd(task: Task): Option<string> {
    Json.AsString(Json.Get(task.payload, "cwd"))
  }

  predicate Open(o: OrderData) {
    o.status !in {Status.Completed, Status.Failed, Status.Cancelled}
  }

  predicate OpenMatch(o: OrderData, id: string, repo: Option<string>) {
    IsMicrotask(o.task) && Open(o) && MicrotaskId(o.task) == Some(id) && (repo.Some? ==> Cwd(o.task) == repo)
  }

  predicate HasOpenMicrotask(orders: map<Id, OrderData>, id: string, repo: Option<string>) {
    exists k | k in orders :: OpenMatch(orders[k], id, repo)
  }

  // ----- What these readers mean, member by member -----

  /** `v` is an object whose member `key` is `w`. */
  ghost predicate Has(v: Json.Value, key: string, w: Json.Value) {
    v.Obj? && key in v.fields && v.fields[key] == w
  }

  /** `v` is an object whose member `outer` is an object whose member `inner` is `w`. */
  ghost predicate HasIn(v: Json.Value, outer: string, inner: string, w: Json.Value) {
    v.Obj? && outer in v.fields && Has(v.fields[outer], inner, w)
  }

  /** The payload is tagged as a microtask's, says it only produces evidence, and is not live. */
  ghost predicate EvidenceOnly(payload: Json.Value) {
    && HasIn(payload, "metadata", "microtask", Json.Bool(true))
    && Has(payload, "evidence_oriented", Json.Bool(true))
    && !Has(payload, "live", Json.Bool(true))
  }

  lemma GateIsForEvidenceOnly(task: Task)
    ensures GateOpen(task) <==> EvidenceOnly(task.payload)
  {
  }

  /** The gate, both ways: a work order is dispatched automatically if and only if it is Submitted and
      its payload has these members. */
  lemma DispatchedExactly(o: OrderData)
    ensures IsAutoDispatchable(o) <==>
            && o.status == Status.Submitted
            && HasIn(o.task.payload, "metadata", "microtask", Json.Bool(true))
            && Has(o.task.payload, "evidence_oriented", Json.Bool(true))
            && !Has(o.task.payload, "live", Json.Bool(true))
  {
    hide GateOpen;
    GateIsForEvidenceOnly(o.task);
  }

  /** A microtask of the entry `id` that is not over, on the repository if one is named. */
  ghost predicate InFlight(o: OrderData, id: string, repo: Option<string>) {
    && HasIn(o.task.payload, "metadata", "microtask", Json.Bool(true))
    && HasIn(o.task.payload, "metadata", "microtask_id", Json.Str(id))
    && o.status != Status.Completed && o.status != Status.Failed && o.status != Status.Cancelled
    && (repo.Some? ==> Has(o.task.payload, "cwd", Json.Str(repo.value)))
  }

  lemma GuardIsForInFlight(o: OrderData, id: string, repo: Option<string>)
    ensures OpenMatch(o, id, repo) <==> InFlight(o, id, repo)
  {
  }

  /** The duplicate guard, both ways: it sees microtasks in flight of the entry and repository it was
      asked about, and no others. */
  lemma GuardedExactly(orders: map<Id, OrderData>, id: string, repo: Option<string>)
    ensures HasOpenMicrotask(orders, id, repo) <==> exists k | k in orders :: InFlight(orders[k], id, repo)
  {
    hide OpenMatch, InFlight;
    forall k | k in orders {
      GuardIsForInFlight(orders[k], id, repo);
    }
  }

  // ----- What the planner guarantees -----

  lemma MetadataFields(d: Definition, parent: Option<string>, overrides: Option<Json.Value>)
    ensures var m := Metadata(d, parent, overrides);
            && "microtask" in m && m["microtask"] == Json.Bool(true)
            && "microtask_id" in m && m["microtask_id"] == Json.Str(d.id)
  {
    assert "microtask"[0] != "overrides"[0];
    assert "microtask_id"[0] != "submitted_by"[0];
  }

  lemma BaseFields(d: Definition, prompt: string, maxStages: nat, timeoutSecs: nat, inputs: map<string, Json.Value>,
                   metadata: map<string, Json.Value>, runId: string)
    ensures var m := Base(d, prompt, maxStages, timeoutSecs, inputs, metadata, runId);
            && "metadata" in m && m["metadata"] == Json.Obj(metadata)
            && "live" in m && m["live"] == Json.Bool(false)
            && "evidence_oriented" in m && m["evidence_oriented"] == Json.Bool(true)
            && "cwd" !in m
  {
    assert "run_id"[0] != "metadata"[0];
  }

  lemma PayloadFields(d: Definition, ov: Overrides, parent: Option<string>, at: Surroundings)
    requires Payload(d, ov, parent, at).Success?
    ensures var v := Payload(d, ov, parent, at).value;
            && Json.Get(v, "metadata") == Some(Json.Obj(Metadata(d, parent, ov.metadata)))
            && Json.Get(v, "live") == Some(Json.Bool(false))
            && Json.Get(v, "evidence_oriented") == Some(Json.Bool(true))
            && Json.Get(v, "cwd") ==
               var repo := MicrotaskRepo(d, ov.repo); if repo.Some? then Some(Json.Str(repo.value)) else None
  {
    hide Base, Metadata, Inputs;
    BaseFields(d, at.prompt,
               if ov.maxStages.Some? then ov.maxStages.value else d.maxStages,
               if ov.timeoutSecs.Some? then ov.timeoutSecs.value else d.timeoutSecs,
               Inputs(MicrotaskRepo(d, ov.repo), MicrotaskConcept(d, ov.concept), MicrotaskRoots(d, ov.modelRoot, at.localRoots)),
               Metadata(d, parent, ov.metadata),
               if ov.runId.Some? then ov.runId.value else "jmcp-microtask-" + d.id);
  }

  /** Overrides are accepted exactly when they guard nothing and stay within the caps, and then,
      whatever they say, the payload passes the dispatch gate and names its entry and repository. */
  lemma AcceptedPayloadPassesGate(d: Definition, ov: Overrides, parent: Option<string>, at: Surroundings)
    ensures var r := Payload(d, ov, parent, at);
            && (r.Success? <==>
                  && Some(true) !in {ov.live, ov.allowNetwork, ov.allowGpu, ov.allowDurableMutation}
                  && WithinBound(ov.maxStages, d.maxStages) && WithinBound(ov.timeoutSecs, d.timeoutSecs))
            && (r.Success? ==>
                  var task := Task(d.workOrderKind, r.value);
                  && GateOpen(task) && MicrotaskId(task) == Some(d.id)
                  && Cwd(task) == MicrotaskRepo(d, ov.repo))
  {
    if Payload(d, ov, parent, at).Success? {
      MetadataFields(d, parent, ov.metadata);
      PayloadFields(d, ov, parent, at);
    }
  }

  /** A payload made for an override repository is found again under that repository, and one made
      without is found by any later look-up that names no repository. */
  lemma GuardSeesGeneratedTask(o: OrderData, d: Definition, ov: Overrides, parent: Option<string>, at: Surroundings)
    requires Payload(d, ov, parent, at).Success? && Open(o)
    requires o.task.payload == Payload(d, ov, parent, at).value
    ensures OpenMatch(o, d.id, ov.repo)
  {
    AcceptedPayloadPassesGate(d, ov, parent, at);
  }

  lemma BaseSays(d: Definition, prompt: string, maxStages: nat, timeoutSecs: nat, inputs: map<string, Json.Value>,
                 metadata: map<string, Json.Value>, runId: string)
    ensures var v := Json.Obj(Base(d, prompt, maxStages, timeoutSecs, inputs, metadata, runId));
            && Has(v, "allow_network", Json.Bool(false)) && Has(v, "allow_gpu", Json.Bool(false))
            && Has(v, "allow_external_durable_mutation", Json.Bool(false))
            && Has(v, "max_stages", Json.Number(maxStages)) && Has(v, "timeout_secs", Json.Number(timeoutSecs))
            && Has(v, "prompt", Json.Str(prompt)) && Has(v, "run_id", Json.Str(runId))
            && Has(v, "resource_intent", d.resourceIntent) && Has(v, "inputs", Json.Obj(inputs))
  {
    assert "run_id"[0] != "inputs"[0];
  }

  lemma MetadataSays(d: Definition, parent: Option<string>, overrides: Option<Json.Value>)
    ensures var v := Json.Obj(Metadata(d, parent, overrides));
            && Has(v, "microtask", Json.Bool(true)) && Has(v, "microtask_id", Json.Str(d.id))
            && Has(v, "microtask_kind", Json.Str(d.kind)) && Has(v, "safety", d.safety)
            && Has(v, "submitted_by", Json.Str("jmcp.microtask_planner"))
            && Has(v, "parent_action_id", if parent.Some? then Json.Str(parent.value) else Json.Null)
            && (overrides.Some? ==> Has(v, "overrides", overrides.value))
  {
    assert "microtask"[0] != "overrides"[0];
  }

  lemma InputsSay(repo: Option<string>, concept: Option<string>, roots: seq<string>)
    ensures var v := Json.Obj(Inputs(repo, concept, roots));
            && (if repo.Some? then Has(v, "repo", Json.Str(repo.value)) else "repo" !in v.fields)
            && (if concept.Some? then Has(v, "concept", Json.Str(concept.value)) else "concept" !in v.fields)
            && (if roots == [] then "model_roots" !in v.fields
                else Has(v, "model_roots", Json.Arr(seq(|roots|, i requires 0 <= i < |roots| => Json.Str(roots[i])))))
  {
    assert "repo"[0] != "concept"[0] && "repo"[0] != "model_roots"[0] && "concept"[0] != "model_roots"[0];
  }

  /** The members of an accepted payload but for the repository it runs in. */
  function Common(d: Definition, ov: Overrides, parent: Option<string>, at: Surroundings): map<string, Json.Value> {
    Base(d, at.prompt,
         if ov.maxStages.Some? then ov.maxStages.value else d.maxStages,
         if ov.timeoutSecs.Some? then ov.timeoutSecs.value else d.timeoutSecs,
         Inputs(MicrotaskRepo(d, ov.repo), MicrotaskConcept(d, ov.concept), MicrotaskRoots(d, ov.modelRoot, at.localRoots)),
         Metadata(d, parent, ov.metadata),
         if ov.runId.Some? then ov.runId.value else "jmcp-microtask-" + d.id)
  }

  /** The repository is added under a key of its own. */
  lemma PayloadExtends(d: Definition, ov: Overrides, parent: Option<string>, at: Surroundings, key: string)
    requires Payload(d, ov, parent, at).Success? && |key| != |"cwd"|
    ensures var v := Payload(d, ov, parent, at).value;
            && v.Obj? && (key in v.fields <==> key in Common(d, ov, parent, at))
            && (key in v.fields ==> v.fields[key] == Common(d, ov, parent, at)[key])
  {
    hide Base, Metadata, Inputs, MicrotaskRepo, MicrotaskConcept, MicrotaskRoots;
  }

  /** What every accepted payload allows, member by member: nothing that is guarded, and as bounds the
      override or the cap of the entry. */
  lemma PayloadLimits(d: Definition, ov: Overrides, parent: Option<string>, at: Surroundings)
    requires Payload(d, ov, parent, at).Success?
    ensures var v := Payload(d, ov, parent, at).value;
            && Has(v, "live", Json.Bool(false)) && Has(v, "evidence_oriented", Json.Bool(true))
            && Has(v, "allow_network", Json.Bool(false)) && Has(v, "allow_gpu", Json.Bool(false))
            && Has(v, "allow_external_durable_mutation", Json.Bool(false))
            && Has(v, "max_stages", Json.Number(if ov.maxStages.Some? then ov.maxStages.value else d.maxStages))
            && Has(v, "timeout_secs", Json.Number(if ov.timeoutSecs.Some? then ov.timeoutSecs.value else d.timeoutSecs))
            && Has(v, "resource_intent", d.resourceIntent)
  {
    hide Payload, Common;
    CommonSays(d, ov, parent, at);
    PayloadExtends(d, ov, parent, at, "live");
    PayloadExtends(d, ov, parent, at, "evidence_oriented");
    PayloadExtends(d, ov, parent, at, "allow_network");
    PayloadExtends(d, ov, parent, at, "allow_gpu");
    PayloadExtends(d, ov, parent, at, "allow_external_durable_mutation");
    PayloadExtends(d, ov, parent, at, "max_stages");
    PayloadExtends(d, ov, parent, at, "timeout_secs");
    PayloadExtends(d, ov, parent, at, "resource_intent");
  }

  lemma CommonSays(d: Definition, ov: Overrides, parent: Option<string>, at: Surroundings)
    ensures var v := Json.Obj(Common(d, ov, parent, at));
            && Has(v, "live", Json.Bool(false)) && Has(v, "evidence_oriented", Json.Bool(true))
            && Has(v, "allow_network", Json.Bool(false)) && Has(v, "allow_gpu", Json.Bool(false))
            && Has(v, "allow_external_durable_mutation", Json.Bool(false))
            && Has(v, "max_stages", Json.Number(if ov.maxStages.Some? then ov.maxStages.value else d.maxStages))
            && Has(v, "timeout_secs", Json.Number(if ov.timeoutSecs.Some? then ov.timeoutSecs.value else d.timeoutSecs))
            && Has(v, "prompt", Json.Str(at.prompt)) && Has(v, "resource_intent", d.resourceIntent)
            && Has(v, "run_id", Json.Str(if ov.runId.Some? then ov.runId.value else "jmcp-microtask-" + d.id))
            && Has(v, "inputs", Json.Obj(Inputs(MicrotaskRepo(d, ov.repo), MicrotaskConcept(d, ov.concept),
                                                MicrotaskRoots(d, ov.modelRoot, at.localRoots))))
            && Has(v, "metadata", Json.Obj(Metadata(d, parent, ov.metadata)))
  {
    hide Base, Metadata, Inputs;
    var maxStages := if ov.maxStages.Some? then ov.maxStages.value else d.maxStages;
    var timeoutSecs := if ov.timeoutSecs.Some? then ov.timeoutSecs.value else d.timeoutSecs;
    var runId := if ov.runId.Some? then ov.runId.value else "jmcp-microtask-" + d.id;
    var inputs := Inputs(MicrotaskRepo(d, ov.repo), MicrotaskConcept(d, ov.concept),
                         MicrotaskRoots(d, ov.modelRoot, at.localRoots));
    BaseSays(d, at.prompt, maxStages, timeoutSecs, inputs, Metadata(d, parent, ov.metadata), runId);
    BaseFields(d, at.prompt, maxStages, timeoutSecs, inputs, Metadata(d, parent, ov.metadata), runId);
  }

  /** Whose payload it is: the entry's, with the caller's metadata kept apart from the planner's. */
  lemma PayloadNamesItsEntry(d: Definition, ov: Overrides, parent: Option<string>, at: Surroundings)
    requires Payload(d, ov, parent, at).Success?
    ensures var v := Payload(d, ov, parent, at).value;
            && HasIn(v, "metadata", "microtask", Json.Bool(true))
            && HasIn(v, "metadata", "microtask_id", Json.Str(d.id))
            && HasIn(v, "metadata", "microtask_kind", Json.Str(d.kind))
            && HasIn(v, "metadata", "submitted_by", Json.Str("jmcp.microtask_planner"))
            && HasIn(v, "metadata", "safety", d.safety)
            && HasIn(v, "metadata", "parent_action_id", if parent.Some? then Json.Str(parent.value) else Json.Null)
            && (ov.metadata.Some? ==> HasIn(v, "metadata", "overrides", ov.metadata.value))
            && Has(v, "prompt", Json.Str(at.prompt))
            && Has(v, "run_id", Json.Str(if ov.runId.Some? then ov.runId.value else "jmcp-microtask-" + d.id))
  {
    hide Payload, Common, Metadata;
    CommonSays(d, ov, parent, at);
    MetadataSays(d, parent, ov.metadata);
    PayloadExtends(d, ov, parent, at, "metadata");
    PayloadExtends(d, ov, parent, at, "prompt");
    PayloadExtends(d, ov, parent, at, "run_id");
  }

  /** Where it works and on what: repository, concept and model roots are the override or the entry's
      own, and absent where the entry takes none. */
  lemma PayloadNamesItsInputs(d: Definition, ov: Overrides, parent: Option<string>, at: Surroundings)
    requires Payload(d, ov, parent, at).Success?
    ensures var v := Payload(d, ov, parent, at).value;
            && v.Obj?
            && (ov.repo.Some? ==> Has(v, "cwd", Json.Str(ov.repo.value)) && HasIn(v, "inputs", "repo", Json.Str(ov.repo.value)))
            && (ov.repo.None? && d.acceptsRepo ==> Has(v, "cwd", Json.Str(".")) && HasIn(v, "inputs", "repo", Json.Str(".")))
            && (ov.repo.None? && !d.acceptsRepo ==> "cwd" !in v.fields)
            && (ov.concept.Some? ==> HasIn(v, "inputs", "concept", Json.Str(ov.concept.value)))
            && (ov.concept.None? && d.defaultConcept.Some? ==>
                  HasIn(v, "inputs", "concept", Json.Str(d.defaultConcept.value)))
            && (d.acceptsModelRoot && ov.modelRoot.Some? ==>
                  HasIn(v, "inputs", "model_roots", Json.Arr([Json.Str(ov.modelRoot.value)])))
            && (!d.acceptsModelRoot ==> forall w :: !HasIn(v, "inputs", "model_roots", w))
  {
    hide Payload, Common, Inputs;
    CommonSays(d, ov, parent, at);
    PayloadCwd(d, ov, parent, at);
    PayloadExtends(d, ov, parent, at, "inputs");
    var roots := MicrotaskRoots(d, ov.modelRoot, at.localRoots);
    InputsSay(MicrotaskRepo(d, ov.repo), MicrotaskConcept(d, ov.concept), roots);
    if d.acceptsModelRoot && ov.modelRoot.Some? {
      assert seq(|roots|, i requires 0 <= i < |roots| => Json.Str(roots[i])) == [Json.Str(ov.modelRoot.value)];
    }
  }

  lemma PayloadCwd(d: Definition, ov: Overrides, parent: Option<string>, at: Surroundings)
    requires Payload(d, ov, parent, at).Success?
    ensures var v := Payload(d, ov, parent, at).value; var repo := MicrotaskRepo(d, ov.repo);
            v.Obj? && if repo.Some? then Has(v, "cwd", Json.Str(repo.value)) else "cwd" !in v.fields
  {
    hide Base, Metadata, Inputs, MicrotaskRepo;
    BaseFields(d, at.prompt,
               if ov.maxStages.Some? then ov.maxStages.value else d.maxStages,
               if ov.timeoutSecs.Some? then ov.timeoutSecs.value else d.timeoutSecs,
               Inputs(MicrotaskRepo(d, ov.repo), MicrotaskConcept(d, ov.concept), MicrotaskRoots(d, ov.modelRoot, at.localRoots)),
               Metadata(d, parent, ov.metadata),
               if ov.runId.Some? then ov.runId.value else "jmcp-microtask-" + d.id);
  }

  // ----- The planner -----

  method RejectGuardedTrue(flag: Option<bool>, field: string) returns (r: Result<(), Rejection>)
    ensures r == if Guards(flag) then Failure(Guarded(field)) else Success(())
  {
    if flag == Some(true) {
      return Failure(Guarded(field));
    }
    r := Success(());
  }

  method Bounded(value: Option<nat>, cap: nat, field: string) returns (r: Result<Option<nat>, Rejection>)
    ensures r == if WithinBound(value, cap) then Success(value) else Failure(OutOfBounds(field))
  {
    if value.Some? && (value.value == 0 || value.value > cap) {
      return Failure(OutOfBounds(field));
    }
    r := Success(value);
  }

  method BuildInputs(repo: Option<string>, concept: Option<string>, roots: seq<string>)
    returns (inputs: map<string, Json.Value>)
    ensures inputs == Inputs(repo, concept, roots)
  {
    inputs := map[];
    if repo.Some? {
      inputs := inputs["repo" := Json.Str(repo.value)];
    }
    if concept.Some? {
      inputs := inputs["concept" := Json.Str(concept.value)];
    }
    if |roots| > 0 {
      inputs := inputs["model_roots" := Json.Arr(Strings(roots))];
    }
  }

  method BuildMetadata(d: Definition, parent: Option<string>, overrides: Option<Json.Value>)
    returns (metadata: map<string, Json.Value>)
    ensures metadata == Metadata(d, parent, overrides)
  {
    metadata := Metadata(d, parent, None);
    if overrides.Some? {
      metadata := metadata["overrides" := overrides.value];
    }
  }

  /** The guards in their order, then the payload, to which the optional members are added last. */
  method MicrotaskPayload(d: Definition, ov: Overrides, parent: Option<string>, at: Surroundings)
    returns (r: Result<Json.Value, Rejection>)
    ensures r == Payload(d, ov, parent, at)
  {
    hide Inputs, Base, Metadata;
    var live := RejectGuardedTrue(ov.live, "live");
    if live.Failure? {
      return Failure(live.error);
    }
    var network := RejectGuardedTrue(ov.allowNetwork, "allowNetwork");
    if network.Failure? {
      return Failure(network.error);
    }
    var gpu := RejectGuardedTrue(ov.allowGpu, "allowGpu");
    if gpu.Failure? {
      return Failure(gpu.error);
    }
    var durable := RejectGuardedTrue(ov.allowDurableMutation, "allowExternalDurableMutation");
    if durable.Failure? {
      return Failure(durable.error);
    }
    var stages := Bounded(ov.maxStages, d.maxStages, "maxStages");
    if stages.Failure? {
      return Failure(stages.error);
    }
    var timeout := Bounded(ov.timeoutSecs, d.timeoutSecs, "timeoutSecs");
    if timeout.Failure? {
      return Failure(timeout.error);
    }
    var repo := MicrotaskRepo(d, ov.repo);
    var concept := MicrotaskConcept(d, ov.concept);
    var roots := MicrotaskRoots(d, ov.modelRoot, at.localRoots);
    var inputs := BuildInputs(repo, concept, roots);
    var metadata := BuildMetadata(d, parent, ov.metadata);
    var payload := Base(d, at.prompt,
                        if stages.value.Some? then stages.value.value else d.maxStages,
                        if timeout.value.Some? then timeout.value.value else d.timeoutSecs,
                        inputs, metadata,
                        if ov.runId.Some? then ov.runId.value else "jmcp-microtask-" + d.id);
    ghost var base := payload;
    if repo.Some? {
      payload := payload["cwd" := Json.Str(repo.value)];
      assert payload == base + map["cwd" := Json.Str(repo.value)];
    } else {
      assert payload == base + map[];
    }
    r := Success(Json.Obj(payload));
  }
}
