# Render-farm orchestration server, modelled in Dafny

This project models the server of a small render farm. The server keeps three in-memory tables:

- the job list: each job has an id, its project and script paths, an output path, a status, the worker ids it is assigned to, and a per-worker progress map;
- the worker table: worker id to hostname, operating system and status;
- the table of open websockets: worker id to socket.

The HTTP and websocket handlers are steps on these tables:

- register a worker;
- create a job;
- record a progress report;
- open and close a worker's websocket;
- start a job, which attempts to send a start message to each of its connected workers;
- cancel a job.

Files:

- `comma_split.dfy` (module `CommaSplit`): Python's `str.split(",")`, which the server uses to turn the form field of assigned worker ids into a list. `Join` (Python's `",".join`, which the server never calls) is the reference inverse used to state the round trip. The file proves that the two are inverse to each other and that the number of pieces is the number of commas plus one.
- `records.dfy` (module `Records`): the job and worker records, the push message, the handlers' responses and request bodies. It also holds the pure parts of the handlers: building a new job, the first job with a given id, overwriting one progress entry, filtering jobs out on cancellation, and the list of start messages. The lemmas are about these functions: last-write-wins, cancellation keeps order and is idempotent, and the start messages go exactly to the connected assigned workers.
- `server.dfy` (module `ServerMain`): class `Server`, whose fields `jobs`, `clients` and `connected` are the three tables. A fourth field, `outbox`, records every attempted send of a start message. There is one method per handler. The searches in `UpdateProgress` and `StartJob`, and the send loop `SendStart` that `StartJob` runs, are loops; their invariants prove them against `FindJob` and `StartMessages`. Every handler method preserves `Valid()`: each job's progress map covers its assigned workers, and every worker with an open websocket is in the worker table with status connected. No method removes a worker record. Four short client methods at the end show what a caller can conclude from the contracts.

The model follows the code as written, including where it checks little:

- Registration always sets the status to connected, even with no websocket open.
- A progress value is any integer, with no 0–100 check.
- A report may add a key that is not an assigned worker.
- A job can be started in any status.
- Job ids given at creation are not checked against the worker table.
- Cancelling deletes the jobs and always answers "cancelled".
- Job ids are not assumed unique. Progress and start act on the first job with the id; cancel removes all of them.
- A repeated id in the assigned list collapses to one progress entry but gets one start message per occurrence.
- Closing a websocket drops the worker id from the socket table whatever socket the id now maps to. A stale socket closing after a reconnect therefore also removes the newer socket and marks the worker disconnected.

## Model

| member | source | states |
|---|---|---|
| `CommaSplit.Split` | server/server_main.py:70 | the split has at least one piece and no piece contains the separator |
| `CommaSplit.JoinSplit` | server/server_main.py:70 | joining the pieces with "," gives back the input |
| `CommaSplit.SplitCount` | server/server_main.py:70 | the number of pieces is the number of commas plus one |
| `CommaSplit.SplitJoin` | server/server_main.py:70 | splitting a join of comma-free pieces gives the pieces back |
| `Records.ClientIds` | server/server_main.py:70 | an empty field gives no ids and is the only thing that does; otherwise the ids join back to the field and number commas + 1 |
| `Records.InitialProgress` | server/server_main.py:80 | the keys are exactly the assigned ids and every value is 0 |
| `Records.NewJob` | server/server_main.py:72-81 | the new record carries the given id and paths, status pending, the split ids, and a progress map with exactly those keys, all 0 (empty for an empty field) |
| `Records.SetProgress` | server/server_main.py:93 | the entry for the reporting worker becomes the reported value, the key may be new, every other entry and field is unchanged, and coverage of the assigned workers is kept |
| `Records.LastWriteWins` | server/server_main.py:93 | a second report for the same worker replaces the first (not a maximum) |
| `Records.ReportsCommute` | server/server_main.py:93 | reports for two different workers can be applied in either order |
| `Records.FindJob` | server/server_main.py:91-92 | the result is the index of the first job with the id, or none exactly when no job has it |
| `Records.RemoveJobs` | server/server_main.py:140 | a job survives exactly when it was present and its id differs |
| `Records.RemoveJobsConcat` | server/server_main.py:140 | filtering distributes over concatenation, so survivors keep their order |
| `Records.RemoveJobsAbsent` | server/server_main.py:140 | filtering an id no job has leaves the list unchanged |
| `Records.RemoveJobsIdempotent` | server/server_main.py:139-141 | cancelling the same id twice equals cancelling once |
| `Records.RemoveJobsCommute` | server/server_main.py:140 | cancelling two ids in either order gives the same list |
| `Records.StartMessages` | server/server_main.py:126-131 | every attempted send goes to an assigned, connected worker on its current socket, and every assigned connected worker gets one |
| `Records.StartMessagesSnoc` | server/server_main.py:126-131 | the messages for one more id come after those for the ids before it, in loop order |
| `Records.NoneConnectedNoMessages` | server/server_main.py:126-131 | no message is sent exactly when no assigned worker is connected |
| `ServerMain.MissingId` | server/server_main.py:37-38 | an id is missing exactly when the key is absent or the id is the empty string |
| `ServerMain.RegisteredClient` | server/server_main.py:41-48 | hostname and os are the given values or "unknown", status is connected |
| `ServerMain.ConnectedClient` | server/server_main.py:103-111 | a known worker keeps hostname and os with status connected; an unknown one gets the "unknown"/"unknown" placeholder |
| `ServerMain.Server.constructor` | server/server_main.py:21-23 | all tables start empty |
| `ServerMain.Server.Register` | server/server_main.py:35-49 | an absent or empty id answers 400 and changes nothing; otherwise exactly that entry is upserted and the rest of the state is unchanged |
| `ServerMain.Server.CreateJob` | server/server_main.py:51-83 | exactly one job is appended, the earlier jobs are unchanged, and "created" is answered |
| `ServerMain.Server.UpdateProgress` | server/server_main.py:85-97 | an unreadable body answers 400 and an unknown job 404, both changing nothing; otherwise only the first job with the id gets the new progress entry |
| `ServerMain.Server.Connect` | server/server_main.py:102-111 | the id maps to the new socket and its worker record is marked connected or created as a placeholder |
| `ServerMain.Server.Disconnect` | server/server_main.py:116-119 | the id leaves the socket table and its record, never deleted, is marked disconnected |
| `ServerMain.Server.StartJob` | server/server_main.py:121-135 | an unknown job answers 404 and changes nothing; otherwise the first job with the id becomes running and the outbox gains exactly the start messages for its connected workers |
| `ServerMain.Server.SendStart` | server/server_main.py:126-133 | the outbox gains exactly the start messages for the connected ids of the list, in list order, and nothing else changes |
| `ServerMain.Server.CancelJob` | server/server_main.py:137-141 | every job with the id is removed, the others keep their order, and "cancelled" is always answered |

## Left out

- File upload, copying into `projects/<job_id>/` and directory creation (server/server_main.py:24-25, 59-68) are filesystem I/O. The stored paths are passed to `CreateJob` as opaque strings.
- Job id generation with `uuid.uuid4()` (server/server_main.py:58) is randomness. The id is a parameter of `CreateJob`, and no uniqueness is claimed.
- The read-only handlers `get_jobs` and `get_clients` (server/server_main.py:27-33) return the tables as they are. In the model they are the fields `jobs` and `clients`.
- FastAPI routing, CORS, JSON parsing and uvicorn startup are framework plumbing. Request bodies arrive as typed records:
  - a register body has optional string fields;
  - a progress body is either a worker id with an integer, or an unreadable body with the text of the raised exception.
- Some JSON values are not modelled: non-string ids, a hostname or os present but null, and a progress body without `client_id` or `progress` (Python would store a `None` key or value).
- The websocket transport is async I/O: `accept`, the receive loop, and the JSON text of the start message. Opening and closing are the discrete events `Connect` and `Disconnect`, and a start message is a structured value.
- ServerMain.Server.StartJob: its outbox (filled by `SendStart`) records every send handed to `asyncio.create_task`. Whether the task is scheduled and delivered is not modelled. Exceptions at server/server_main.py:132-133 are swallowed, so a failed scheduling is invisible to the caller, and the model still records that send.
- Concurrency is out of scope: each handler is one atomic step, and locking and interleavings are not modelled.
- client/client_main.py is not part of this model. It is the worker desktop agent: a UI, HTTP calls, and running the renderer as a subprocess.
- server/run_server_gui.py is not part of this model. It is an operator GUI that polls the HTTP interface.
- The code does not do the following, so the model does not claim it:
  - a per-worker overall-progress minimum;
  - percent range checks;
  - rejecting unknown worker ids;
  - an invalid-state check on start;
  - an automatic done status;
  - a cancelled status.
