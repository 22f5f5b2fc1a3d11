/** The records the render-farm server keeps in memory (job dictionaries, worker
    records, push messages, handler responses) and the pure pieces of its
    handlers: building a new job, finding the first job with an id, filtering
    jobs out on cancellation, overwriting one progress entry and choosing the
    recipients of a start message. */
module Records {
  import opened CommaSplit

  datatype Option<T> = None | Some(value: T)

  function GetOr<T>(o: Option<T>, default: T): T
  {
    match o
    case Some(v) => v
    case None => default
  }

  /** Identity of one live websocket object. */
  type Handle = nat

  datatype JobStatus = Pending | Running

  datatype ClientStatus = Connected | Disconnected

  /** One entry of the job list. Paths are opaque: the files behind them are not modelled. */
  datatype Job = Job(
    id: string,
    project: string,
    projectPath: string,
    jsxPath: string,
    outputPath: string,
    status: JobStatus,
    assignedClients: seq<string>,
    progress: map<string, int>)

  /** One entry of the worker table. */
  datatype Client = Client(hostname: string, os: string, status: ClientStatus)

  /** The one push message: `{"action": "start", "job_id": jobId}`. */
  datatype Message = Start(jobId: string)

  /** A message handed to the transport for worker `to` on socket `handle`. */
  datatype Sent = Sent(to: string, handle: Handle, message: Message)

  /** The body of a register request; `None` is a key that is absent. */
  datatype Registration = Registration(clientId: Option<string>, hostname: Option<string>, os: Option<string>)

  /** The body of a progress report: its two fields, or a body whose reading raised, with the exception text. */
  datatype ProgressBody = Parsed(clientId: string, percent: int) | Unreadable(reason: string)

  /** What a handler answers. */
  datatype Response =
    | Registered(clientId: string)
    | Created(jobId: string)
    | ProgressRecorded
    | Started(jobId: string)
    | Cancelled(jobId: string)
    | Failed(code: int, error: string)

  const Unknown := "unknown"
  const PlaceholderClient := Client(Unknown, Unknown, Connected)

  /** The worker ids of a job: an empty form field means none, otherwise the comma-split. */
  function ClientIds(clientList: string): (r: seq<string>)
    ensures clientList == "" <==> r == []
    ensures clientList != "" ==> Join(r, ',') == clientList && |r| == Count(clientList, ',') + 1
    ensures forall c :: c in r ==> ',' !in c
  {
    if clientList == "" then []
    else
      JoinSplit(clientList, ',');
      SplitCount(clientList, ',');
      Split(clientList, ',')
  }

  /** The progress map of a new job: a zero for each assigned id (duplicates collapse). */
  function InitialProgress(ids: seq<string>): (m: map<string, int>)
    ensures forall c :: c in m <==> c in ids
    ensures forall c :: c in m ==> m[c] == 0
  {
    map c | c in ids :: 0
  }

  /** Every assigned worker has a progress entry. */
  ghost predicate ProgressCovers(j: Job)
  {
    forall c :: c in j.assignedClients ==> c in j.progress
  }

  /** The record `create_job` appends. */
  function NewJob(id: string, project: string, projectPath: string, jsxPath: string,
                  outputPath: string, clientList: string): (j: Job)
    ensures j.id == id && j.project == project && j.outputPath == outputPath
    ensures j.projectPath == projectPath && j.jsxPath == jsxPath
    ensures j.status == Pending
    ensures j.assignedClients == ClientIds(clientList)
    ensures j.progress.Keys == set c | c in j.assignedClients
    ensures forall c :: c in j.progress ==> j.progress[c] == 0
    ensures clientList == "" ==> j.assignedClients == [] && j.progress == map[]
    ensures ProgressCovers(j)
  {
    var ids := ClientIds(clientList);
    Job(id, project, projectPath, jsxPath, outputPath, Pending, ids, InitialProgress(ids))
  }

  /** `job["progress"][client_id] = percent`: last write wins, the key may be new. */
  function SetProgress(j: Job, clientId: string, percent: int): (r: Job)
    ensures r.progress.Keys == j.progress.Keys + {clientId}
    ensures r.progress[clientId] == percent
    ensures forall c :: c in j.progress && c != clientId ==> r.progress[c] == j.progress[c]
    ensures r.(progress := j.progress) == j
    ensures ProgressCovers(j) ==> ProgressCovers(r)
  {
    j.(progress := j.progress[clientId := percent])
  }

  /** A later report for the same worker replaces an earlier one (not a maximum). */
  lemma LastWriteWins(j: Job, clientId: string, first: int, second: int)
    ensures SetProgress(SetProgress(j, clientId, first), clientId, second) == SetProgress(j, clientId, second)
  {
  }

  /** Reports for two different workers do not interfere. */
  lemma ReportsCommute(j: Job, c1: string, p1: int, c2: string, p2: int)
    requires c1 != c2
    ensures SetProgress(SetProgress(j, c1, p1), c2, p2) == SetProgress(SetProgress(j, c2, p2), c1, p1)
  {
  }

  /** Index of the first job with id `id`, as the handlers' early-return loops find it. */
  function FindJob(jobs: seq<Job>, id: string): (r: Option<nat>)
    ensures r.Some? ==> r.value < |jobs| && jobs[r.value].id == id
    ensures r.Some? ==> forall k :: 0 <= k < r.value ==> jobs[k].id != id
    ensures r.None? <==> forall k :: 0 <= k < |jobs| ==> jobs[k].id != id
    decreases |jobs|
  {
    if |jobs| == 0 then None
    else if jobs[0].id == id then Some(0)
    else
      match FindJob(jobs[1..], id)
      case None => None
      case Some(k) => Some(k + 1)
  }

  /** A job list with every job of id `id` filtered out, keeping the order of the rest. */
  function RemoveJobs(jobs: seq<Job>, id: string): (r: seq<Job>)
    ensures forall j :: j in r <==> j in jobs && j.id != id
    ensures |r| <= |jobs|
    decreases |jobs|
  {
    if |jobs| == 0 then []
    else if jobs[0].id == id then RemoveJobs(jobs[1..], id)
    else [jobs[0]] + RemoveJobs(jobs[1..], id)
  }

  /** Filtering works piece by piece, so the jobs that stay keep their relative order. */
  lemma {:induction false} RemoveJobsConcat(a: seq<Job>, b: seq<Job>, id: string)
    ensures RemoveJobs(a + b, id) == RemoveJobs(a, id) + RemoveJobs(b, id)
    decreases |a|
  {
    if |a| > 0 {
      assert (a + b)[0] == a[0];
      assert (a + b)[1..] == a[1..] + b;
      RemoveJobsConcat(a[1..], b, id);
    } else {
      assert a + b == b;
    }
  }

  /** Cancelling an id that no job has changes nothing. */
  lemma {:induction false} RemoveJobsAbsent(jobs: seq<Job>, id: string)
    requires forall k :: 0 <= k < |jobs| ==> jobs[k].id != id
    ensures RemoveJobs(jobs, id) == jobs
    decreases |jobs|
  {
    if |jobs| > 0 {
      RemoveJobsAbsent(jobs[1..], id);
      assert [jobs[0]] + jobs[1..] == jobs;
    }
  }

  /** Cancelling twice is the same as cancelling once. */
  lemma RemoveJobsIdempotent(jobs: seq<Job>, id: string)
    ensures RemoveJobs(RemoveJobs(jobs, id), id) == RemoveJobs(jobs, id)
  {
  }

  /** Cancelling two ids in either order leaves the same jobs. */
  lemma {:induction false} RemoveJobsCommute(jobs: seq<Job>, a: string, b: string)
    ensures RemoveJobs(RemoveJobs(jobs, a), b) == RemoveJobs(RemoveJobs(jobs, b), a)
    decreases |jobs|
  {
    if |jobs| > 0 {
      RemoveJobsCommute(jobs[1..], a, b);
      var j := jobs[0];
      var ra := RemoveJobs(jobs[1..], a);
      var rb := RemoveJobs(jobs[1..], b);
      if j.id != a {
        RemoveJobsConcat([j], ra, b);
      }
      if j.id != b {
        RemoveJobsConcat([j], rb, a);
      }
    }
  }

  /** The start messages of a job: one per assigned id (in order, repeats included)
      that is currently connected, on that id's current socket. */
  function StartMessages(ids: seq<string>, connected: map<string, Handle>, jobId: string): (r: seq<Sent>)
    ensures |r| <= |ids|
    ensures forall m :: m in r ==> m.to in ids && m.to in connected && m.handle == connected[m.to] && m.message == Start(jobId)
    ensures forall c :: c in ids && c in connected ==> Sent(c, connected[c], Start(jobId)) in r
    decreases |ids|
  {
    if |ids| == 0 then []
    else
      var rest := StartMessages(ids[1..], connected, jobId);
      assert forall c :: c in ids[1..] ==> c in ids;
      assert forall c :: c in ids ==> c == ids[0] || c in ids[1..];
      if ids[0] in connected then [Sent(ids[0], connected[ids[0]], Start(jobId))] + rest
      else rest
  }

  /** No assigned worker is connected exactly when no message is sent. */
  lemma NoneConnectedNoMessages(ids: seq<string>, connected: map<string, Handle>, jobId: string)
    ensures StartMessages(ids, connected, jobId) == [] <==> forall c :: c in ids ==> c !in connected
  {
  }

  /** The messages for one more id are appended after those of the ids before it. */
  lemma {:induction false} StartMessagesSnoc(ids: seq<string>, c: string, connected: map<string, Handle>, jobId: string)
    ensures StartMessages(ids + [c], connected, jobId)
         == StartMessages(ids, connected, jobId) + (if c in connected then [Sent(c, connected[c], Start(jobId))] else [])
    decreases |ids|
  {
    if |ids| == 0 {
      assert ([] + [c])[1..] == [];
      assert [] + [c] == [c];
    } else {
      assert (ids + [c])[0] == ids[0];
      assert (ids + [c])[1..] == ids[1..] + [c];
      StartMessagesSnoc(ids[1..], c, connected, jobId);
    }
  }
}
