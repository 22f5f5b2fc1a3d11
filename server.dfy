/** The render-farm server's in-memory state and its request handlers. The job
    list, the worker table and the table of open websockets are fields of one
    object; every handler is one atomic step on them. Each attempted push to a
    worker is appended to an outbox instead of being written to a socket. */
module ServerMain {
  import opened Records

  /** A register request lacks an id when the key is absent or the id is empty. */
  function MissingId(id: Option<string>): (b: bool)
    ensures !b <==> id.Some? && |id.value| > 0
  {
    id.None? || id.value == ""
  }

  /** The worker record a successful registration stores. */
  function RegisteredClient(payload: Registration): (c: Client)
    ensures c.status == Connected
    ensures c.hostname == (if payload.hostname.Some? then payload.hostname.value else Unknown)
    ensures c.os == (if payload.os.Some? then payload.os.value else Unknown)
  {
    Client(GetOr(payload.hostname, Unknown), GetOr(payload.os, Unknown), Connected)
  }

  /** The worker record after its websocket opens: the old metadata with status
      connected, or a placeholder when the worker never registered. */
  function ConnectedClient(clients: map<string, Client>, id: string): (c: Client)
    ensures c.status == Connected
    ensures id in clients ==> c.hostname == clients[id].hostname && c.os == clients[id].os
    ensures id !in clients ==> c == Client(Unknown, Unknown, Connected)
  {
    if id in clients then clients[id].(status := Connected) else PlaceholderClient
  }

  class Server {
    var jobs: seq<Job>
    var clients: map<string, Client>
    var connected: map<string, Handle>
    var outbox: seq<Sent>

    /** Every job has a progress entry for each assigned worker, and every open
        websocket belongs to a known worker whose status is connected. */
    ghost predicate Valid()
      reads this
    {
      && (forall j :: j in jobs ==> ProgressCovers(j))
      && (forall c :: c in connected ==> c in clients && clients[c].status == Connected)
    }

    /** The tables as the module starts: all empty. */
    constructor ()
      ensures Valid()
      ensures jobs == [] && clients == map[] && connected == map[] && outbox == []
    {
      jobs, clients, connected, outbox := [], map[], map[], [];
    }

    /** POST /register: upsert of one worker record. */
    method Register(payload: Registration) returns (resp: Response)
      requires Valid()
      modifies this
      ensures Valid()
      ensures jobs == old(jobs) && connected == old(connected) && outbox == old(outbox)
      ensures old(clients).Keys <= clients.Keys
      ensures MissingId(payload.clientId) ==> resp == Failed(400, "Missing client_id") && clients == old(clients)
      ensures !MissingId(payload.clientId) ==>
                resp == Registered(payload.clientId.value) &&
                clients == old(clients)[payload.clientId.value := RegisteredClient(payload)]
    {
      if MissingId(payload.clientId) {
        return Failed(400, "Missing client_id");
      }
      var id := payload.clientId.value;
      clients := clients[id := RegisteredClient(payload)];
      resp := Registered(id);
    }

    /** POST /jobs: append a pending job. The id and the stored paths are given. */
    method CreateJob(jobId: string, project: string, projectPath: string, jsxPath: string,
                     outputPath: string, clientList: string) returns (resp: Response)
      requires Valid()
      modifies this
      ensures Valid()
      ensures clients == old(clients) && connected == old(connected) && outbox == old(outbox)
      ensures |jobs| == |old(jobs)| + 1 && jobs[..|old(jobs)|] == old(jobs)
      ensures jobs[|old(jobs)|] == NewJob(jobId, project, projectPath, jsxPath, outputPath, clientList)
      ensures resp == Created(jobId)
    {
      jobs := jobs + [NewJob(jobId, project, projectPath, jsxPath, outputPath, clientList)];
      resp := Created(jobId);
    }

    /** PATCH /jobs/{job_id}/progress: overwrite one entry of the first job with that id. */
    method UpdateProgress(jobId: string, body: ProgressBody) returns (resp: Response)
      requires Valid()
      modifies this
      ensures Valid()
      ensures clients == old(clients) && connected == old(connected) && outbox == old(outbox)
      ensures body.Unreadable? ==> resp == Failed(400, body.reason) && jobs == old(jobs)
      ensures body.Parsed? && FindJob(old(jobs), jobId).None? ==>
                resp == Failed(404, "job not found") && jobs == old(jobs)
      ensures body.Parsed? && FindJob(old(jobs), jobId).Some? ==>
                var k := FindJob(old(jobs), jobId).value;
                resp == ProgressRecorded &&
                jobs == old(jobs)[k := SetProgress(old(jobs)[k], body.clientId, body.percent)]
    {
      if body.Unreadable? {
        return Failed(400, body.reason);
      }
      var i := 0;
      while i < |jobs|
        invariant 0 <= i <= |jobs|
        invariant jobs == old(jobs) && clients == old(clients)
        invariant connected == old(connected) && outbox == old(outbox)
        invariant forall k :: 0 <= k < i ==> jobs[k].id != jobId
      {
        if jobs[i].id == jobId {
          var updated := SetProgress(jobs[i], body.clientId, body.percent);
          assert jobs[i] in jobs;
          jobs := jobs[i := updated];
          return ProgressRecorded;
        }
        i := i + 1;
      }
      return Failed(404, "job not found");
    }

    /** The websocket for worker `id` opens on socket `ws`. */
    method Connect(id: string, ws: Handle)
      requires Valid()
      modifies this
      ensures Valid()
      ensures jobs == old(jobs) && outbox == old(outbox)
      ensures connected == old(connected)[id := ws]
      ensures clients == old(clients)[id := ConnectedClient(old(clients), id)]
    {
      connected := connected[id := ws];
      clients := clients[id := ConnectedClient(clients, id)];
    }

    /** The websocket of worker `id` closes. The id is dropped whatever socket it
        maps to; the worker record stays, marked disconnected. */
    method Disconnect(id: string)
      requires Valid()
      modifies this
      ensures Valid()
      ensures jobs == old(jobs) && outbox == old(outbox)
      ensures connected == old(connected) - {id}
      ensures old(clients).Keys == clients.Keys
      ensures clients == if id in old(clients)
                         then old(clients)[id := old(clients)[id].(status := Disconnected)]
                         else old(clients)
    {
      connected := connected - {id};
      if id in clients {
        clients := clients[id := clients[id].(status := Disconnected)];
      }
    }

    /** POST /start_job/{job_id}: the first job with that id becomes running, and a
        send of the start message is attempted for each of its workers that has an
        open websocket. */
    method StartJob(jobId: string) returns (resp: Response)
      requires Valid()
      modifies this
      ensures Valid()
      ensures clients == old(clients) && connected == old(connected)
      ensures FindJob(old(jobs), jobId).None? ==>
                resp == Failed(404, "Job not found") && jobs == old(jobs) && outbox == old(outbox)
      ensures FindJob(old(jobs), jobId).Some? ==>
                var k := FindJob(old(jobs), jobId).value;
                resp == Started(jobId) &&
                jobs == old(jobs)[k := old(jobs)[k].(status := Running)] &&
                outbox == old(outbox) + StartMessages(old(jobs)[k].assignedClients, connected, jobId)
    {
      var i := 0;
      while i < |jobs|
        invariant 0 <= i <= |jobs|
        invariant jobs == old(jobs) && clients == old(clients)
        invariant connected == old(connected) && outbox == old(outbox)
        invariant forall k :: 0 <= k < i ==> jobs[k].id != jobId
      {
        if jobs[i].id == jobId {
          assert jobs[i] in jobs;
          jobs := jobs[i := jobs[i].(status := Running)];
          SendStart(jobs[i].assignedClients, jobId);
          return Started(jobId);
        }
        i := i + 1;
      }
      return Failed(404, "Job not found");
    }

    /** The inner loop of `start_job`: one send attempt per assigned id that has an
        open websocket, in the order of the list. */
    method SendStart(ids: seq<string>, jobId: string)
      modifies this`outbox
      ensures outbox == old(outbox) + StartMessages(ids, connected, jobId)
    {
      var n := 0;
      while n < |ids|
        invariant 0 <= n <= |ids|
        invariant outbox == old(outbox) + StartMessages(ids[..n], connected, jobId)
      {
        var cid := ids[n];
        StartMessagesSnoc(ids[..n], cid, connected, jobId);
        assert ids[..n + 1] == ids[..n] + [cid];
        if cid in connected {
          outbox := outbox + [Sent(cid, connected[cid], Start(jobId))];
        }
        n := n + 1;
      }
      assert ids[..|ids|] == ids;
    }

    /** DELETE /jobs/{job_id}: drop every job with that id; always reports cancelled. */
    method CancelJob(jobId: string) returns (resp: Response)
      requires Valid()
      modifies this
      ensures Valid()
      ensures clients == old(clients) && connected == old(connected) && outbox == old(outbox)
      ensures jobs == RemoveJobs(old(jobs), jobId)
      ensures resp == Cancelled(jobId)
    {
      jobs := RemoveJobs(jobs, jobId);
      resp := Cancelled(jobId);
    }
  }

  /** A caller's view: registering and connecting a worker. */
  method RegisterSession()
  {
    var s := new Server();
    var r := s.Register(Registration(Some(""), Some("render-01"), None));
    assert r == Failed(400, "Missing client_id") && s.clients == map[];
    r := s.Register(Registration(Some("w1"), Some("render-01"), None));
    assert r == Registered("w1");
    assert s.clients["w1"] == Client("render-01", Unknown, Connected);
    s.Connect("w1", 7);
    assert s.clients["w1"] == Client("render-01", Unknown, Connected);
  }

  /** A caller's view: creating a job for two workers. */
  method CreateSession()
  {
    var s := new Server();
    var ids := ["w1", "w2"];
    var clientList := CommaSplit.Join(ids, ',');
    CommaSplit.SplitJoin(ids, ',');
    var r := s.CreateJob("J1", "scene.aep", "projects/J1/scene.aep", "projects/J1/run.jsx", "out", clientList);
    assert r == Created("J1");
    assert s.jobs[..0] == [];
    assert s.jobs[0].assignedClients == ["w1", "w2"];
    assert s.jobs[0].progress.Keys == {"w1", "w2"};
    assert s.jobs[0].status == Pending;
  }

  /** A caller's view: starting a job whose second worker has no open websocket. */
  method StartSession(job: Job)
    requires job.id == "J1" && job.assignedClients == ["w1", "w2"] && ProgressCovers(job)
  {
    var s := new Server();
    s.Connect("w1", 7);
    s.jobs := [job];
    var r := s.StartJob("J1");
    assert FindJob([job], "J1") == Some(0);
    assert r == Started("J1");
    assert s.jobs[0].status == Running;
    assert "w2" !in s.connected;
    assert s.outbox == [Sent("w1", 7, Start("J1"))];
    r := s.StartJob("J2");
    assert r == Failed(404, "Job not found");
  }

  /** A caller's view: progress reports, a disconnect and a repeated cancel. */
  method ReportSession(job: Job)
    requires job.id == "J1" && ProgressCovers(job)
  {
    var s := new Server();
    s.Connect("w1", 3);
    assert s.clients["w1"] == Client(Unknown, Unknown, Connected);
    s.jobs := [job];
    var r := s.UpdateProgress("J1", Parsed("w2", 40));
    r := s.UpdateProgress("J1", Parsed("w2", 30));
    assert s.jobs[0].progress["w2"] == 30;
    r := s.UpdateProgress("J2", Parsed("w1", 10));
    assert r == Failed(404, "job not found");

    s.Disconnect("w1");
    assert "w1" !in s.connected && s.clients["w1"].status == Disconnected;

    r := s.CancelJob("J1");
    assert s.jobs == [];
    r := s.CancelJob("J1");
    assert r == Cancelled("J1") && s.jobs == [];
  }
}
