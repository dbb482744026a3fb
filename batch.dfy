/** The batch processor: jobs saved in the store, a queue of job ids, and
    the processing of one job item by item. */
module Batch {
  import opened Json
  import KeyValue

  const QueueKey := "batch:queue"

  /** `_get_job_key`: the job's id follows a fixed prefix, so different
      ids name different entries. */
  function JobKey(id: string): (k: string)
    ensures |k| == 10 + |id| && k[10..] == id
  {
    "batch:job:" + id
  }

  /** The saved form of a job: what `BatchJob` serialises to and is parsed
      back from. Times are whole seconds. */
  datatype JobRecord = JobRecord(
    id: string,
    agent: string,
    inputs: seq<map<string, Json>>,
    status: string,
    createdAt: int,
    completedAt: Option<int>,
    results: seq<map<string, Json>>,
    error: Option<string>)

  function Objects(xs: seq<map<string, Json>>): (j: Json)
    ensures j.JArr? && |j.items| == |xs|
    ensures forall i :: 0 <= i < |xs| ==> j.items[i] == JObj(xs[i])
  {
    JArr(seq(|xs|, i requires 0 <= i < |xs| => JObj(xs[i])))
  }

  function AsObjects(j: Json): (r: Option<seq<map<string, Json>>>)
    ensures r.Some? <==> j.JArr? && forall i :: 0 <= i < |j.items| ==> j.items[i].JObj?
    ensures r.Some? ==> |r.value| == |j.items| && forall i :: 0 <= i < |j.items| ==> j.items[i] == JObj(r.value[i])
  {
    if j.JArr? && forall i :: 0 <= i < |j.items| ==> j.items[i].JObj? then
      Some(seq(|j.items|, i requires 0 <= i < |j.items| => j.items[i].fields))
    else None
  }

  /** The document `job.json()` produces. */
  function JobDoc(r: JobRecord): Json
  {
    JObj(map[
      "id" := JStr(r.id),
      "agent" := JStr(r.agent),
      "inputs" := Objects(r.inputs),
      "status" := JStr(r.status),
      "created_at" := JNum(r.createdAt),
      "completed_at" := (match r.completedAt case None => JNull case Some(t) => JNum(t)),
      "results" := Objects(r.results),
      "error" := OptStr(r.error)])
  }

  /** `BatchJob.parse_raw` on a decoded document; None for a document the
      model rejects. A parsed job's scalar fields are the document's. */
  function JobFromDoc(doc: Json): (r: Option<JobRecord>)
    ensures r.Some? ==>
              doc.JObj? && "id" in doc.fields && doc.fields["id"] == JStr(r.value.id)
              && "agent" in doc.fields && doc.fields["agent"] == JStr(r.value.agent)
              && "status" in doc.fields && doc.fields["status"] == JStr(r.value.status)
              && "created_at" in doc.fields && doc.fields["created_at"] == JNum(r.value.createdAt)
              && "error" in doc.fields && doc.fields["error"] == OptStr(r.value.error)
  {
    if !doc.JObj? then None
    else
      var f := doc.fields;
      if !("id" in f && f["id"].JStr? && "agent" in f && f["agent"].JStr? && "inputs" in f
           && "status" in f && f["status"].JStr? && "created_at" in f && f["created_at"].JNum?
           && "completed_at" in f && (f["completed_at"].JNull? || f["completed_at"].JNum?)
           && "results" in f && "error" in f && (f["error"].JNull? || f["error"].JStr?))
      then None
      else match (AsObjects(f["inputs"]), AsObjects(f["results"]))
        case (Some(inputs), Some(results)) =>
          Some(JobRecord(
            f["id"].s, f["agent"].s, inputs, f["status"].s, f["created_at"].n,
            if f["completed_at"].JNum? then Some(f["completed_at"].n) else None,
            results,
            if f["error"].JStr? then Some(f["error"].s) else None))
        case _ => None
  }

  lemma ObjectsRoundTrip(xs: seq<map<string, Json>>)
    ensures AsObjects(Objects(xs)) == Some(xs)
  {
    var r := AsObjects(Objects(xs));
    assert r.Some?;
    assert r.value == xs;
  }

  /** A saved job parses back to itself. */
  lemma JobDocRoundTrip(r: JobRecord)
    ensures JobFromDoc(JobDoc(r)) == Some(r)
  {
    ObjectsRoundTrip(r.inputs);
    ObjectsRoundTrip(r.results);
  }

  /** What the workflow does with one input: returns data or raises. */
  datatype Attempt = Returned(data: Json) | Raised(message: string)

  /** The entry `process_job` appends for one input. */
  function ItemResult(a: Attempt): (r: map<string, Json>)
    ensures a.Returned? ==> r == map["status" := JStr("success"), "data" := a.data]
    ensures a.Raised? ==> r == map["status" := JStr("error"), "error" := JStr(a.message)]
  {
    match a
    case Returned(d) => map["status" := JStr("success"), "data" := d]
    case Raised(m) => map["status" := JStr("error"), "error" := JStr(m)]
  }

  /** A batch job, updated in place as it is processed. */
  class BatchJob {
    var id: string
    var agent: string
    var inputs: seq<map<string, Json>>
    var status: string
    var createdAt: int
    var completedAt: Option<int>
    var results: seq<map<string, Json>>
    var error: Option<string>

    /** A new job: pending, with no results. */
    constructor (id: string, agent: string, inputs: seq<map<string, Json>>, now: int)
      ensures Record() == JobRecord(id, agent, inputs, "pending", now, None, [], None)
    {
      this.id, this.agent, this.inputs := id, agent, inputs;
      status, createdAt, completedAt := "pending", now, None;
      results, error := [], None;
    }

    /** A job holding a parsed record. */
    constructor FromRecord(r: JobRecord)
      ensures Record() == r
    {
      id, agent, inputs, status := r.id, r.agent, r.inputs, r.status;
      createdAt, completedAt, results, error := r.createdAt, r.completedAt, r.results, r.error;
    }

    function Record(): JobRecord
      reads this
    {
      JobRecord(id, agent, inputs, status, createdAt, completedAt, results, error)
    }
  }

  /** `get_job`'s outcomes: no truthy entry, the parsed job, or a parse
      error that propagates. */
  datatype Fetched = Missing | Found(job: JobRecord) | Malformed

  /** What one turn of the processing loop did with the job it took:
      skipped it for want of data, raised out of the loop on a document
      `parse_raw` rejects (which ends the processor loop), failed it for an
      unknown agent, or processed it. */
  datatype Handled = NoJobData | ParseRaised | AgentNotFound | Processed

  /** One turn of the processing loop: no id (an empty queue or an empty
      id, which the loop treats alike), or a job id taken and handled. */
  datatype Turn = Idle | JobTurn(jobId: string, handled: Handled)

  /** The loop's way with a fetched job; `workflows` stands for
      `get_workflow_func`. */
  function HandledAs(f: Fetched, workflows: string -> Option<map<string, Json> -> Attempt>): Handled
  {
    match f
    case Missing => NoJobData
    case Malformed => ParseRaised
    case Found(r) => if workflows(r.agent).None? then AgentNotFound else Processed
  }

  /** The record a job taken from the queue is last saved with: failed for
      an unknown agent, otherwise completed at `now` with one result per
      input. */
  function Settled(r: JobRecord, workflows: string -> Option<map<string, Json> -> Attempt>, now: int): JobRecord
  {
    match workflows(r.agent)
    case None => r.(status := "failed", error := Some("Agent " + r.agent + " not found"))
    case Some(w) =>
      r.(status := "completed", completedAt := Some(now),
         results := seq(|r.inputs|, i requires 0 <= i < |r.inputs| => ItemResult(w(r.inputs[i]))))
  }

  /** A settled job keeps its identity and inputs. An unknown agent fails
      it with `Agent {agent} not found` and runs no input; a known one
      completes it, each input giving its own result in input order. */
  lemma SettledSpec(r: JobRecord, workflows: string -> Option<map<string, Json> -> Attempt>, now: int)
    ensures var s := Settled(r, workflows, now);
            s.id == r.id && s.agent == r.agent && s.inputs == r.inputs && s.createdAt == r.createdAt
            && (workflows(r.agent).None? ==>
                  s.status == "failed" && s.error == Some("Agent " + r.agent + " not found")
                  && s.results == r.results && s.completedAt == r.completedAt)
            && (workflows(r.agent).Some? ==>
                  s.status == "completed" && s.completedAt == Some(now) && s.error == r.error
                  && |s.results| == |r.inputs|
                  && forall i :: 0 <= i < |r.inputs| ==>
                       s.results[i] == ItemResult(workflows(r.agent).value(r.inputs[i])))
  {
  }

  /** The ids that repeated RPOPs take from a list: its last element first. */
  function Drain(l: seq<string>): seq<string>
    decreases |l|
  {
    if l == [] then [] else [l[|l| - 1]] + Drain(l[..|l| - 1])
  }

  /** The list after LPUSHing `ids` one after another. */
  function PushAll(l: seq<string>, ids: seq<string>): seq<string>
    decreases |ids|
  {
    if ids == [] then l else PushAll([ids[0]] + l, ids[1..])
  }

  lemma {:induction false} DrainPushed(x: string, l: seq<string>)
    ensures Drain([x] + l) == Drain(l) + [x]
    decreases |l|
  {
    if l != [] {
      assert ([x] + l)[..|[x] + l| - 1] == [x] + l[..|l| - 1];
      DrainPushed(x, l[..|l| - 1]);
    }
  }

  /** The queue is first in, first out: ids pushed after what the queue
      holds are taken after it, in the order they were pushed. */
  lemma {:induction false} QueueIsFifo(l: seq<string>, ids: seq<string>)
    ensures Drain(PushAll(l, ids)) == Drain(l) + ids
    decreases |ids|
  {
    if ids != [] {
      QueueIsFifo([ids[0]] + l, ids[1..]);
      DrainPushed(ids[0], l);
      assert [ids[0]] + ids[1..] == ids;
    }
  }

  /** The input loop of `process_job`: one result per input, in input
      order, each the outcome of that input alone; an input whose workflow
      raises does not stop the ones after it. */
  method RunInputs(inputs: seq<map<string, Json>>, workflow: map<string, Json> -> Attempt)
    returns (results: seq<map<string, Json>>)
    ensures |results| == |inputs|
    ensures forall i :: 0 <= i < |inputs| ==> results[i] == ItemResult(workflow(inputs[i]))
  {
    results := [];
    var i := 0;
    while i < |inputs|
      invariant 0 <= i <= |inputs|
      invariant |results| == i
      invariant forall k :: 0 <= k < i ==> results[k] == ItemResult(workflow(inputs[k]))
    {
      results := results + [ItemResult(workflow(inputs[i]))];
      i := i + 1;
    }
  }

  /** What `get_job` makes of the text stored under a job's key: nothing
      for a missing or empty text, the job for a document that holds one,
      and a parse failure otherwise. */
  function Fetch(stored: Option<Text>): (r: Fetched)
    ensures r.Found? ==> exists t :: stored == Some(t) && Loads(t).Some? && JobFromDoc(Loads(t).value) == Some(r.job)
  {
    match stored
    case None => Missing
    case Some(t) =>
      if !NonEmpty(t) then Missing
      else match Loads(t)
        case None => Malformed
        case Some(doc) =>
          match JobFromDoc(doc)
          case None => Malformed
          case Some(j) => Found(j)
  }

  class BatchProcessor {
    const store: KeyValue.Store
    var processing: bool
    /** Every snapshot `_save_job` has written, oldest first. */
    ghost var saves: seq<JobRecord>

    constructor (store: KeyValue.Store)
      ensures this.store == store && !processing && saves == []
    {
      this.store := store;
      processing := false;
      saves := [];
    }

    /** `get_job` at second `now`. */
    function GetJob(id: string, now: int): (r: Fetched)
      reads store
      ensures r.Found? ==> exists t :: store.Get(JobKey(id), now) == Some(t) && Loads(t).Some? && JobFromDoc(Loads(t).value) == Some(r.job)
    {
      Fetch(store.Get(JobKey(id), now))
    }

    /** `_save_job`: the job's record replaces the saved one. */
    method SaveJob(job: BatchJob)
      modifies store, this`saves
      ensures store.strings == old(store.strings)[JobKey(job.id) := Encoded(JobDoc(job.Record()))]
      ensures store.expiry == old(store.expiry) - {JobKey(job.id)}
      ensures store.hashes == old(store.hashes) && store.sets == old(store.sets)
      ensures store.zsets == old(store.zsets) && store.lists == old(store.lists)
      ensures saves == old(saves) + [job.Record()]
      ensures forall t :: GetJob(job.id, t) == Found(job.Record())
    {
      store.Set(JobKey(job.id), Encoded(JobDoc(job.Record())));
      saves := saves + [job.Record()];
      forall t
        ensures GetJob(job.id, t) == Found(job.Record())
      {
        assert JobKey(job.id) in store.Live(t);
        JobDocRoundTrip(job.Record());
      }
    }

    /** `submit_job`, with the new id and the clock as parameters: the job
        is saved pending with no results and its id is pushed onto the
        queue; `get_job` then finds it. */
    method SubmitJob(agent: string, inputs: seq<map<string, Json>>, id: string, now: int)
      returns (job: BatchJob)
      modifies store, this`saves
      ensures fresh(job)
      ensures job.Record() == JobRecord(id, agent, inputs, "pending", now, None, [], None)
      ensures store.lists == old(store.lists)[QueueKey := [id] + old(store.List(QueueKey))]
      ensures store.strings == old(store.strings)[JobKey(id) := Encoded(JobDoc(job.Record()))]
      ensures store.expiry == old(store.expiry) - {JobKey(id)}
      ensures store.hashes == old(store.hashes) && store.sets == old(store.sets)
      ensures store.zsets == old(store.zsets)
      ensures forall t :: GetJob(id, t) == Found(job.Record())
    {
      job := new BatchJob(id, agent, inputs, now);
      SaveJob(job);
      ghost var saved := job.Record();
      label saved:
      store.LPush(QueueKey, id);
      assert job.Record() == saved;
      forall t
        ensures GetJob(id, t) == Found(saved)
      {
        assert old@saved(GetJob(id, t)) == Found(saved);
        assert store.Get(JobKey(id), t) == old@saved(store.Get(JobKey(id), t));
      }
    }

    /** `process_job`. The job is saved as processing before any input is
        run, unless that save fails with `saveError`; each input's outcome
        becomes one result, in input order, whatever the other inputs do;
        the job then completes at `now`, or fails with the save error, and
        is saved again. That final save is taken as completing, even after
        the first one failed; were it to fail too, its error would leave
        `process_job` (processor.py:120) and nothing more would be written. */
    method ProcessJob(job: BatchJob, workflow: map<string, Json> -> Attempt, saveError: Option<string>, now: int)
      modifies job, store, this`saves
      ensures job.id == old(job.id) && job.agent == old(job.agent) && job.inputs == old(job.inputs)
      ensures job.createdAt == old(job.createdAt)
      ensures saveError.None? ==>
                job.status == "completed" && job.completedAt == Some(now) && job.error == old(job.error)
                && |job.results| == |job.inputs|
                && (forall i :: 0 <= i < |job.inputs| ==> job.results[i] == ItemResult(workflow(job.inputs[i])))
                && saves == old(saves) + [old(job.Record()).(status := "processing"), job.Record()]
      ensures saveError.Some? ==>
                job.status == "failed" && job.error == saveError && job.completedAt == Some(now)
                && job.results == old(job.results)
                && saves == old(saves) + [job.Record()]
      ensures store.strings == old(store.strings)[JobKey(job.id) := Encoded(JobDoc(job.Record()))]
      ensures store.expiry == old(store.expiry) - {JobKey(job.id)}
      ensures store.hashes == old(store.hashes) && store.sets == old(store.sets)
      ensures store.zsets == old(store.zsets) && store.lists == old(store.lists)
      ensures forall t :: GetJob(job.id, t) == Found(job.Record())
    {
      ghost var before := job.Record();
      job.status := "processing";
      if saveError.None? {
        assert job.Record() == before.(status := "processing");
        SaveJob(job);
        job.results := RunInputs(job.inputs, workflow);
        job.status := "completed";
        job.completedAt := Some(now);
      } else {
        job.status := "failed";
        job.error := saveError;
        job.completedAt := Some(now);
      }
      SaveJob(job);
    }

    /** One turn of `process_loop`, with `workflows` standing for
        `get_workflow_func`: take the oldest queued id; an empty queue or an
        empty id ends the turn; otherwise handle the job saved under the id. */
    method LoopTurn(workflows: string -> Option<map<string, Json> -> Attempt>, now: int)
      returns (turn: Turn)
      modifies store, this`saves
      ensures old(store.List(QueueKey)) == [] ==> turn == Idle && unchanged(store)
      ensures old(store.List(QueueKey)) != [] ==>
                var q := old(store.List(QueueKey));
                store.lists == old(store.lists)[QueueKey := q[..|q| - 1]]
      ensures old(store.List(QueueKey)) != [] && old(store.List(QueueKey))[|old(store.List(QueueKey))| - 1] == "" ==>
                turn == Idle && store.strings == old(store.strings) && store.expiry == old(store.expiry)
      ensures old(store.List(QueueKey)) != [] && old(store.List(QueueKey))[|old(store.List(QueueKey))| - 1] != "" ==>
                var id := old(store.List(QueueKey))[|old(store.List(QueueKey))| - 1];
                var f := old(GetJob(id, now));
                turn == JobTurn(id, HandledAs(f, workflows))
                && (f.Found? ==>
                      store.strings == old(store.strings)[JobKey(f.job.id) := Encoded(JobDoc(Settled(f.job, workflows, now)))]
                      && store.expiry == old(store.expiry) - {JobKey(f.job.id)})
                && (!f.Found? ==> store.strings == old(store.strings) && store.expiry == old(store.expiry))
      ensures store.hashes == old(store.hashes) && store.sets == old(store.sets)
      ensures store.zsets == old(store.zsets)
    {
      label start:
      var id := store.RPop(QueueKey);
      if id.None? || id.value == "" {
        return Idle;
      }
      assert store.Get(JobKey(id.value), now) == old@start(store.Get(JobKey(id.value), now));
      var done := HandleJob(id.value, workflows, now);
      turn := JobTurn(id.value, done);
    }

    /** The rest of a turn, for the id taken from the queue. No job data:
        the id is skipped. A saved text that `parse_raw` rejects: the error
        propagates out of the loop, and nothing is written. An unknown
        agent: the job fails with `Agent {agent} not found`, running none
        of its inputs. Otherwise the job is processed. Either way the job
        is saved, under the id its record holds, as `Settled` describes. */
    method HandleJob(id: string, workflows: string -> Option<map<string, Json> -> Attempt>, now: int)
      returns (done: Handled)
      modifies store, this`saves
      ensures done == HandledAs(old(GetJob(id, now)), workflows)
      ensures !old(GetJob(id, now)).Found? ==> unchanged(store)
      ensures old(GetJob(id, now)).Found? ==>
                var r := old(GetJob(id, now)).job;
                store.strings == old(store.strings)[JobKey(r.id) := Encoded(JobDoc(Settled(r, workflows, now)))]
                && store.expiry == old(store.expiry) - {JobKey(r.id)}
                && forall t :: GetJob(r.id, t) == Found(Settled(r, workflows, now))
      ensures store.hashes == old(store.hashes) && store.sets == old(store.sets)
      ensures store.zsets == old(store.zsets) && store.lists == old(store.lists)
    {
      var fetched := GetJob(id, now);
      if fetched.Missing? {
        return NoJobData;
      }
      if fetched.Malformed? {
        return ParseRaised;
      }
      var r := fetched.job;
      var job := new BatchJob.FromRecord(r);
      var workflow := workflows(job.agent);
      if workflow.None? {
        job.status := "failed";
        job.error := Some("Agent " + job.agent + " not found");
        assert job.Record() == Settled(r, workflows, now);
        SaveJob(job);
        return AgentNotFound;
      }
      ProcessJob(job, workflow.value, None, now);
      assert job.results == seq(|r.inputs|, i requires 0 <= i < |r.inputs| => ItemResult(workflow.value(r.inputs[i])));
      assert job.Record() == Settled(r, workflows, now);
      return Processed;
    }

    /** `start_processing`: turns the flag on; a no-op when it is on. */
    method StartProcessing() returns (started: bool)
      modifies this`processing
      ensures processing
      ensures started <==> !old(processing)
    {
      if processing {
        return false;
      }
      processing := true;
      return true;
    }

    /** `stop_processing`: turns the flag off; a no-op when it is off. */
    method StopProcessing() returns (stopped: bool)
      modifies this`processing
      ensures !processing
      ensures stopped <==> old(processing)
    {
      if !processing {
        return false;
      }
      processing := false;
      return true;
    }
  }
}
