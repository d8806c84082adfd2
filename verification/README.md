# MediaForge: a verified model

MediaForge takes uploads through an HTTP gateway, queues one job per upload in RabbitMQ,
and lets any number of image and OCR workers process them. Results go to an artifacts table
and an object store, progress goes out as events, a WebSocket gateway fans the events out,
and a browser shows them. This project models that system in Dafny and proves what its code
and its design documents promise of it. `dafny verify dfyconfig.toml` checks all of it.

## How the model is built

**The job pipeline** is one state machine (`Pipeline.dfy`). Its state holds the `jobs` and
`artifacts` tables, the object store, every copy of every message in the broker, the open
gateway requests and the delivery handlers of all workers. One action is one externally
visible effect: an object put, a row write, an event, a publish, an ack, a nack. The gateway,
the workers, crashes, lost connections, expiries and foreign undecodable messages interleave
freely. Each effect gets a reply: done, refused, or torn, that is, done but reported as
failed. A disabled action changes nothing, so every sequence of actions is a run and every
theorem about runs speaks of all interleavings. A handler that lost its connection goes on
running and still reaches the stores while its message is delivered again.

**RabbitMQ** is the environment (`Amqp.dfy`): topic routing after section 3.1.3.3 of the AMQP
0-9-1 specification, atomic dead-lettering along the dead-letter exchange of the queue
(`Topology.dfy` proves it the one declared), with the routing key kept, and `x-death` as a
move-to-front list of counters. A lost connection requeues an unacked message with its header
untouched. No delivery limit is set on the quorum queues, as in RabbitMQ 3.13.

**The code itself** appears in imperative form where it is imperative: `Cluster.dfy` gives the
shared services as a class whose calls may fail and let everyone else act first; `Workers.dfy`
has the two delivery handlers and `Gateway.dfy` the submit handler, statement by statement,
against it. Their contracts say that what they do is a run of the protocol, so all that is
proved of runs holds of them. `Hub.dfy`, `Server.dfy`, `RealtimeClient.dfy`, `QueueRunner.dfy`,
`RateLimiter.dfy`, `Topology.dfy` and `History.dfy` have classes with the sources' fields,
each method proved against a function of the old state; the laws are proved of those functions.

| files | what they prove |
|---|---|
| Keys, Processor, Amqp, Topology | object keys never collide; one run's outputs never collide; routing, attempt numbers, both decoders; start order of the services |
| Integrity, Submission | a completed job has exactly one full run's rows, forever; references resolve across the three stores; which rows have no message |
| Custody, Retries, Settlement | one live token per message; attempt numbers; bounded retries; honest settlement |
| Progress, Outcomes, Labels, Faults | a termination measure and progress; success without faults; labels and settlements; which faults undo a completion |
| Exclusive | with exclusive delivery: placement determines the row; completed is absorbing |
| Traces, Streams, Stages | what is announced, in which order, and what the browser shows of it |
| Cluster, Workers, Gateway | the handlers' code refines the protocol |
| Hub, Server, RealtimeClient, Subscription | indexes as one relation; connection bookkeeping; subscription convergence |
| QueueRunner, RateLimiter, Listing, WordCount, History | the browser queue, the limiter, paging, the word count, the history list |

## Where a claim needed care

- The image worker acks although its parking publish failed
  (services/worker-image/internal/broker/broker.go:196-197), so it can lose a message:
  `Settlement.ImageWorkerCanLose` gives a run, and `Settlement.LostIffNeverParked` says exactly
  when a message settled by parking is lost. `Settlement.NothingLostIfParkingAccepts` says when
  nothing is, and `Settlement.SettlementIsHonest` what holds in any case.
- `completed` is absorbing only with exclusive delivery, successful status reads, untorn
  completion writes and, for the OCR worker, a completion event that does not raise.
  `Faults.EachConditionIsNeeded` gives, for each of these, runs that undo a completion with all
  the others met, and `Faults.FaithfulIsExact` shows the conditions exact at the steps they
  speak of. The artifact rows need none of this.
- The image worker labels outcomes with a literal 5; `Labels.LiteralFive` proves that its
  labels match the consumer's verdict if and only if the configured maximum is 5.
- "Every pending row has a message" is false after a failed publish:
  `Submissions.PendingWithoutMessage` gives the runs and `Submissions.RowsWithoutMessage` says
  exactly which rows have none. The converse, that every message has its row and its source,
  holds (`Integrity.ReferencesResolve`).
- docs/architecture.md:117-118 calls the `x-death` count the attempt number; the code adds one.
- The failure event of the image worker carries progress 0, that of the OCR worker 100.
- The two death-count decoders agree on every header RabbitMQ writes, but not on all headers;
  `Amqp.DecodersAgreeIff` says on which.
- The Go services pass a constant ten seconds as retry delay while the OCR worker's is
  configurable, so any other setting keeps one of them from starting
  (`Topologies.StartBesideGo`).
- Completed and failed share a rank in the browser's fold, so it depends on the order of the
  stream exactly if both occur (`Stages.OrderMattersIff`).
- A window with a fraction of a second is cut to whole seconds, for the bucket and the expiry
  alike; the interval bound is stated for the window so cut.

## Model

| member | source | states |
|---|---|---|
| Keys.KeysNeverCollide | services/api-gateway/internal/httpapi/handlers.go:137 | with slash-free job ids and any file names, two object keys have the same text if and only if they are the same key, across uploads and artifacts |
| Keys.SlashInIdWouldCollide | services/api-gateway/internal/httpapi/handlers.go:137 | the condition is needed: with a slash in an id two different keys can share a text |
| Keys.SanitizeIsStable | services/api-gateway/internal/httpapi/handlers.go:418-425 | a file name is kept exactly if it is not empty and holds no slash or backslash, and sanitizing a second time changes nothing |
| Keys.UploadText | services/api-gateway/internal/httpapi/handlers.go:137 | the text of an upload's key is uploads/, the id, a slash and the upload's own name with an underscore for every slash and backslash, or upload.bin for an empty one |
| Keys.FileNames | services/worker-image/cmd/worker/main.go:197-206 | an image output's file is its name with .png exactly for image/png, .webp exactly for image/webp and .jpg otherwise; the OCR worker's is text.txt |
| Keys.ArtifactText | services/worker-image/cmd/worker/main.go:151-152 | the text of an artifact's key is artifacts/, the id, a slash and that file |
| Amqp.JobsRouting | services/worker-image/internal/broker/broker.go:102-109 | a job published under its kind's key reaches that kind's work queue and no other queue |
| Amqp.KeysByName | services/worker-image/internal/broker/broker.go:102-109 | image.process reaches exactly the image queue, ocr.extract exactly the OCR queue, no other key any work queue, and an event no queue of the topology |
| Amqp.HopRouting | services/worker-image/internal/broker/broker.go:110-122 | whatever its key, a message on the retry or parking exchange reaches exactly the retry or parking queue |
| Amqp.FirstWordMatches | services/worker-image/internal/broker/broker.go:110-122 | in a binding pattern a star takes exactly one word of the key, a hash any number of them, and any other word itself |
| Amqp.TwoHops | docs/architecture.md:113-121 | a rejection and an expiry turn the header of k trips into that of k + 1, with the counters one apart in between |
| Amqp.DeathIsCounted | docs/architecture.md:117-118 | a death in a queue for a reason adds one to that count, to no other, and puts its entry first, on any header |
| Amqp.DecodersAgree | services/worker-image/internal/broker/broker.go:276-293 | on every header RabbitMQ writes the Go and the Python decoder read the same number, the latest death's count |
| Amqp.CountsRead | services/worker-ocr/mediaforge_ocr/broker.py:180-187 | a 64-bit count is read by both decoders, a 32-bit or decimal one by the Python decoder alone |
| Amqp.DeathByName | services/worker-image/internal/broker/broker.go:276-293 | a death is written under x-death with the queue's name, the reason and a 64-bit count |
| Amqp.AttemptNumbering | services/worker-ocr/mediaforge_ocr/broker.py:180-187 | after k trips around the retry loop the header reads as attempt k + 1 |
| Amqp.DecodersAgreeIff | services/worker-ocr/mediaforge_ocr/broker.py:180-187 | on any header at all the decoders agree if and only if the first entry has no count but a 64-bit number or a zero and, where the list should be, there is a list, a text or an empty value |
| Topologies.Broker.QueueDeclare | services/worker-image/internal/broker/broker.go:103-105 | declaring a queue succeeds unless its delay is invalid or it exists with other arguments, and a refused one changes nothing |
| Topologies.Broker.DeclareTopology | services/worker-image/internal/broker/broker.go:95-125 | on an empty broker and with a delay of 0 to 4294967295 ms the loop declares exactly the four exchanges, the four queues with their types, dead-letter exchanges and delay, and the four bindings; in any state it stops at the first refusal |
| Topologies.FirstStart | services/api-gateway/internal/broker/broker.go:96-138 | before there is a retry queue, a start with a delay of 0 to 4294967295 ms yields the full topology, and any other fails and leaves exchanges and work queues only |
| Topologies.LaterStart | services/worker-ocr/mediaforge_ocr/broker.py:83-97 | on the full topology a start succeeds if and only if its retry delay is the one declared, and changes nothing either way |
| Topologies.StartOrderIsImmaterial | services/worker-ocr/mediaforge_ocr/broker.py:83-97 | services may start in any order and number: the first valid delay fixes the topology for good, and from then on a start succeeds exactly with that delay |
| Topologies.AllStartIff | services/worker-ocr/mediaforge_ocr/broker.py:83-97 | a series of starts all succeed if and only if they have one and the same valid delay |
| Topologies.StartBesideGo | services/worker-image/cmd/worker/main.go:79 | among services of which one is a Go service, with its constant ten seconds, all start, in whatever order, if and only if every OCR worker is configured with ten seconds too |
| Topologies.DeadLettersLoop | services/worker-image/internal/broker/broker.go:102-122 | whatever services started, by what is then declared a message that dies in a work queue reaches exactly the retry queue, and dying there exactly the work queue it came from |
| Topologies.DeclaredClosed | services/worker-image/internal/broker/broker.go:95-125 | after any starts every exchange that a queue is bound to or dead-letters into is declared |
| Topologies.RejectFollowsTopology | services/worker-image/internal/broker/broker.go:201 | the protocol's rejection of a delivery adds exactly the copies that the dead-letter exchange declared for its queue and the bindings declared lead to |
| Topologies.ExpiryFollowsTopology | services/worker-image/internal/broker/broker.go:110 | and so does the expiry of a copy in the retry queue |
| Processor.Process | services/worker-image/internal/processor/processor.go:55-106 | each of the five operations on its own yields the one output with its own variant, parameters, name and content type, or fails with its encoding; any other operation yields nothing; and a list yields the outputs of its operations in order, nothing once one fails or the source cannot be decoded |
| Processor.OneOperation | services/worker-image/internal/processor/processor.go:55-66 | what a run on one operation is, for every operation: the override if positive, else the option, else 1600, 256, 85 or 3.0 |
| Processor.OneMoreOperation | services/worker-image/internal/processor/processor.go:68-104 | a run on one more operation is the run before followed by what that operation yields on its own |
| Processor.RunIsConsistent | services/worker-image/internal/processor/processor.go:68-104 | in one run two outputs with the same name, or stored under the same file, are the same output |
| Processor.OutputsComeFromOperations | services/worker-image/internal/processor/processor.go:68-104 | every output stems from one of the requested operations, and there are at most as many outputs as operations |
| Processor.RunIsBounded | services/worker-image/internal/processor/processor.go:68-104 | a run of either worker yields at most one output per operation, or one if there are none |
| Integrity.PartialThenFull | services/worker-image/internal/store/postgres.go:57-67 | a full run's upserts over any rows that a partial run of the same job left give exactly the full run's rows |
| Integrity.StepKeeps | services/worker-image/cmd/worker/main.go:128-170 | every action of gateway, worker, broker and environment keeps the invariant over tables, objects, messages and handlers, and takes nothing back |
| Integrity.CompletedIsOneFullRun | services/worker-image/cmd/worker/main.go:151-170 | in every interleaving with crashes, redeliveries and stale handlers, a job that shows as completed has exactly the rows of one uninterrupted run, and their objects hold that run's bytes |
| Integrity.CompletedText | services/worker-ocr/mediaforge_ocr/worker.py:72-98 | a completed OCR job has the row text, the object text.txt and in it what was extracted from the upload |
| Integrity.CompletedVariants | services/worker-image/cmd/worker/main.go:151-163 | a completed image job has, for each of thumbnail, grayscale, blur and webp it asked for, the row of that name and the object thumbnail.png, grayscale.png, blur.png or webp.webp with what was encoded from the upload |
| Integrity.CompletedResized | services/worker-image/cmd/worker/main.go:151-163 | and for resize the row resized and the object resized.png, resized.webp or resized.jpg, as the format asked for says |
| Integrity.CompletedRowsNeverChange | docs/architecture.md:127-130 | after a job was completed its artifact rows never change again in any continuation |
| Integrity.ReferencesResolve | services/api-gateway/internal/httpapi/handlers.go:137-166 | at every step a message has its row and source object, an artifact row its job row and object, and no two keys in the store share a text |
| Integrity.AcceptedMeansEnqueued | docs/architecture.md:132-136 | a request answered 202 has had its message enqueued |
| Submissions.RowsWithoutMessage | services/api-gateway/internal/httpapi/handlers.go:157-167 | in every run a job has a row exactly if its insert took effect and had a message published exactly if its publish did; so a row lacks one if and only if its request is about to publish, its insert was reported as failed though it took effect, or its publish was refused, and it is then pending |
| Submissions.PublishDecides | services/api-gateway/internal/httpapi/handlers.go:163-167 | after the publish the row exists, and a message was published if and only if the broker took it, whatever it was told |
| Submissions.OrphanStays | services/api-gateway/internal/httpapi/handlers.go:157-167 | a row left without a message by an answered request stays pending and without one in every continuation |
| Submissions.PendingWithoutMessage | services/api-gateway/internal/httpapi/handlers.go:157-167 | for every upload there are runs, one answered 502 and one 500, that leave a pending row with no message in any queue |
| Custody.TokenIsThere | services/worker-image/internal/broker/broker.go:165-204 | after every run the one live token of every message is where its path says, and nowhere else |
| Custody.Conservation | services/worker-ocr/mediaforge_ocr/broker.py:102-141 | live copies, holding workers and settlements of a published message always add up to one, and a live copy sits in its own kind's queue or the retry queue |
| Retries.BooksBalance | services/worker-image/internal/broker/broker.go:165-204 | after every run each handler's verdict, number and settlement and each message's header and ledger are in order |
| Retries.NextVerdict | services/worker-image/internal/broker/broker.go:190-201 | a delivery is parked for permanent, malformed or last failures only, and rejected only for a transient one with attempts to spare |
| Settlement.QueuedHeaders | services/worker-image/internal/broker/broker.go:166 | a queued token's header counts its completed trips, and in the retry queue its two counters differ by one |
| Settlement.AttemptsAreNumbered | services/worker-ocr/mediaforge_ocr/broker.py:108 | every attempt under way carries the number both decoders read, between 1 and max(1, maxRetries); a held one is 1 plus the completed trips |
| Settlement.RetriesAreBounded | docs/architecture.md:119-123 | attempts started are at most N plus the requeues, trips through the retry queue at most N - 1, and permanent failures or last attempts take none |
| Settlement.ParkedIsInParking | services/worker-image/internal/broker/broker.go:206-214 | in every run a message with an accepted parking publish lies in the parking queue with the body its request published |
| Settlement.SettlementIsHonest | services/worker-ocr/mediaforge_ocr/broker.py:131-141 | an acked message's job was completed, or it was offered to the parking queue; it lies there if the OCR worker parked it or the broker accepted any such publish |
| Settlement.NothingLostIfParkingAccepts | services/worker-image/internal/broker/broker.go:192-203 | with parking publishes accepted no message of either worker is lost: acked means completed or lying in the parking queue |
| Settlement.LostIffNeverParked | services/worker-image/internal/broker/broker.go:192-203 | in every reachable state a message settled by parking is held by no queue if and only if the broker never took a parking publish of it |
| Settlement.RefusedParkLoses | services/worker-image/internal/broker/broker.go:196-197 | from any reachable state about to park, a refused publish and the ack settle the message by parking with the queues unchanged; it is then lost if and only if no earlier parking publish of it was taken |
| Settlement.ImageWorkerCanLose | services/worker-image/internal/broker/broker.go:196-197 | there is a run in which the image worker settles a message by parking that no parking copy was made of |
| Progress.RankDrops | services/worker-image/cmd/worker/main.go:128-180 | every step of a delivery attempt of either worker brings it nearer to its end |
| Progress.StepsAreBounded | services/worker-image/internal/broker/broker.go:192-203 | in every run the steps spent on a message are at most N + requeues attempts, at 15 steps each and three more for every operation asked for |
| Progress.CanBeSettled | services/worker-ocr/mediaforge_ocr/broker.py:99-141 | every reachable state with the message published has a continuation that settles it and takes nothing but steps for that message, after the end of its worker if a park had raised |
| Progress.SettledIffNothingLeft | services/worker-ocr/mediaforge_ocr/broker.py:99-141 | a published message is settled if and only if no step for it can be taken and its worker did not end in a park that raised |
| Labels.LiteralFive | services/worker-image/cmd/worker/main.go:121 | the labels of failed image attempts match the consumer's verdict if and only if the configured maximum is 5 |
| Labels.LabelsMatchVerdicts | services/worker-ocr/mediaforge_ocr/worker.py:36-51 | over every run each finished handler run of the OCR worker, and of the image worker if its maximum is 5, counted the verdict the consumer then reaches |
| Labels.SettlementsAreLogged | services/worker-image/internal/broker/broker.go:187-204 | in every run the settlement of a job's message goes with a finished handler run of exactly that attempt and verdict, and so does each of its trips through the retry queue |
| Labels.SettlementsAreCounted | services/worker-ocr/mediaforge_ocr/worker.py:36-51 | so every settlement was counted as the success or parking it was and every trip as a retry, by the OCR worker and by the image worker if its maximum is 5 |
| Outcomes.FaultFreeAttemptSucceeds | services/worker-image/cmd/worker/main.go:128-170 | a delivery attempt on a processable job goes on, by its own fault-free steps alone, to complete the job and settle the message by success |
| Faults.FaithfulIsExact | services/worker-ocr/mediaforge_ocr/worker.py:41-48 | at the three points the fault conditions speak of, the next step undoes a completion if and only if the condition was broken |
| Faults.StaleHandlerUndoes | services/worker-image/cmd/worker/main.go:129-134 | a stale handler about to write processing or failed undoes a completion, its row then saying what it wrote |
| Faults.EachConditionIsNeeded | services/worker-image/cmd/worker/main.go:128-180 | for every processable upload and each of the four conditions that binds its worker there is a run that completes the job and then undoes it while the other three hold throughout |
| Exclusive.PlacementDeterminesRow | services/worker-image/cmd/worker/main.go:128-180 | with exclusive delivery and successful status writes, a message in the retry queue or parked has a failed row, one settled by success a completed row, so no settled job stays in processing |
| Exclusive.CompletedIsAbsorbing | services/worker-image/cmd/worker/main.go:129-134 | in every faithful run, with crashes and redeliveries, a completed job stays completed |
| Exclusive.StepStatus | services/worker-image/internal/store/postgres.go:46-54 | what any action does to any row's status: a status write of one of the job's own handlers sets it to what is written, the insert makes it pending, and nothing else creates or changes it |
| Traces.TracedSoFar | services/worker-ocr/mediaforge_ocr/worker.py:60-103 | after every run each attempt under way has announced a prefix of 10, 40, 80 per output, 100, or such a prefix and its failure; one about to ack announced all of it, or nothing if it skipped |
| Streams.StreamIsAttempts | services/worker-image/cmd/worker/main.go:135-178 | in every run, with stale handlers, crashes and lost announcements, a job's events are one group per delivery, in that order, and each group is a subsequence of an attempt's announcements of that form |
| Streams.StreamIsExact | services/worker-ocr/mediaforge_ocr/worker.py:60-103 | if the broker takes what is announced over open channels, each group is such announcements in full |
| Stages.NeverLowers | services/web/src/App.tsx:26-27 | folding further statuses never lowers the rank of the stage shown |
| Stages.WhatIsShown | services/web/src/App.tsx:26-27 | the fold shows the last terminal status if there was one, and otherwise the highest status heard |
| Stages.OrderMattersIff | services/web/src/App.tsx:26-27 | all reorderings of a stream show the same stage if and only if the stream does not hold both completed and failed |
| Stages.StageTellsOutcome | services/web/src/App.tsx:63-67 | in a faithful run, whichever announcements are lost, a completion is published at most once, last, and the row says so; the browser shows completed exactly if it was published, and else failed exactly if a failure was |
| Clusters.Cluster.SetStatus | services/worker-image/internal/store/postgres.go:46-54 | a status update sets the row's status, or fails and may have set it, and leaves every other row alone; it is the write due of this attempt, which then stands where its worker's code goes on |
| Clusters.Cluster.AddArtifact | services/worker-image/internal/store/postgres.go:57-67 | an upsert puts exactly this row under job and name, or fails and may have done so; without a job row it fails and writes nothing; it is the attempt's next step |
| Clusters.Cluster.Status | services/worker-ocr/mediaforge_ocr/db.py:18-21 | a status read returns the status the row has at that moment, none without a row, and leads on as the worker's code does |
| Clusters.Cluster.Put | services/worker-image/cmd/worker/main.go:152-156 | a put stores exactly these bytes under this key, or fails and may have stored them; it is the attempt's next step |
| Clusters.Cluster.Get | services/worker-image/cmd/worker/main.go:138-143 | a get returns the bytes stored under the key or fails, and leads on as the worker's code does |
| Clusters.Cluster.PublishEvent | services/worker-image/internal/broker/broker.go:219-243 | a publish appends the announcement to the events, or fails and may have appended it; over a closed channel it always fails and appends nothing |
| Clusters.Cluster.Park | services/worker-image/internal/broker/broker.go:206-214 | parking adds one copy of the body with fresh headers to the parking queue, or fails and may have added it; over a closed channel it always fails and adds nothing |
| Clusters.Cluster.Settle | services/worker-image/internal/broker/broker.go:197-203 | over an open channel an ack settles the message as done or parked and a nack adds its dead-lettered copy to the retry queue; over a closed one neither does anything |
| Clusters.CompletedRowsAreFull | services/worker-image/internal/store/postgres.go:57-67 | whatever calls and foreign actions led to a cluster object's state, its completed jobs have a full run's rows |
| Clusters.NothingIsLost | services/worker-image/internal/broker/broker.go:165-204 | and every published message has exactly one token or settlement in it |
| Workers.ImageWorker.Work | services/worker-image/cmd/worker/main.go:128-170 | the handler's body, run among arbitrary foreign actions, takes exactly the protocol's steps and returns the error whose verdict the consumer reaches |
| Workers.ImageWorker.Download | services/worker-image/cmd/worker/main.go:135-143 | announces the attempt best effort and fetches the source, or fails with a transient error |
| Workers.ImageWorker.Produce | services/worker-image/cmd/worker/main.go:145-170 | transforms, stores and completes in order; a failed transform is permanent, any other failure transient |
| Workers.ImageWorker.Store | services/worker-image/cmd/worker/main.go:151-163 | the loop over the results puts, records and announces each output in order, so that all of them are stored and on record under their own files, or fails at the first refusal |
| Workers.ImageWorker.StoreOne | services/worker-image/cmd/worker/main.go:151-163 | one turn of that loop leaves the output's bytes under its name with the extension of its type, and its row naming that object, or returns the transient error |
| Workers.ImageWorker.Fail | services/worker-image/cmd/worker/main.go:175-180 | recording a failure is best effort and leaves the verdict to the attempt number |
| Workers.ImageWorker.Handle | services/worker-image/cmd/worker/main.go:111-126 | the label counted on return is the one the protocol logs |
| Workers.ImageWorker.OnDelivery | services/worker-image/internal/broker/broker.go:165-204 | from receipt to settlement one delivery is a run of the protocol in which this worker does not crash; it starts with the delivery, and its last action acks or dead-letters this message |
| Workers.OcrWorker.Work | services/worker-ocr/mediaforge_ocr/worker.py:60-70 | the OCR body takes exactly the protocol's steps and raises at the first failing effect |
| Workers.OcrWorker.Download | services/worker-ocr/mediaforge_ocr/worker.py:66-70 | announces the attempt and fetches the source, raising at the first failing effect |
| Workers.OcrWorker.Produce | services/worker-ocr/mediaforge_ocr/worker.py:72-103 | extraction, storing and completion in order; an extraction failure is permanent, any other transient |
| Workers.OcrWorker.Store | services/worker-ocr/mediaforge_ocr/worker.py:83-100 | puts, records and announces the text and completes, raising at the first failing effect |
| Workers.OcrWorker.Handle | services/worker-ocr/mediaforge_ocr/worker.py:36-51 | the label of the finally clause is the one the protocol logs, and the failure is recorded before it is re-raised |
| Workers.OcrWorker.Fail | services/worker-ocr/mediaforge_ocr/worker.py:53-58 | a failing status write skips the event, and neither masks the cause |
| Workers.OcrWorker.OnMessage | services/worker-ocr/mediaforge_ocr/broker.py:102-141 | the callback's last action acks or dead-letters this message, unless parking raises and leaves it unsettled |
| Gateways.Gateway.HandleSubmit | services/api-gateway/internal/httpapi/handlers.go:137-170 | store, insert, publish, each possibly failing among foreign actions, is a run of the protocol; answers are 202, 500 or 502, and after 202 source, row and message exist |
| Gateways.Gateway.CreateJob | services/api-gateway/internal/store/postgres.go:90-101 | the insert is the request's next step |
| Gateways.Gateway.PublishJSON | services/api-gateway/internal/broker/broker.go:144-181 | a confirmed publish answers 202, any other 502, whether or not the broker took the message |
| Hubs.Hub.Subscribe | services/realtime-gateway/src/ws/hub.ts:33-47 | both indexes stay inverse and the relation gains exactly one pair |
| Hubs.Hub.Unsubscribe | services/realtime-gateway/src/ws/hub.ts:49-53 | the relation loses exactly one pair, and an emptied job is forgotten |
| Hubs.Hub.Remove | services/realtime-gateway/src/ws/hub.ts:56-65 | erases exactly one client's pairs and its entry |
| Hubs.Hub.Broadcast | services/realtime-gateway/src/ws/hub.ts:68-83 | one attempt per subscriber of the job, and the result counts those that succeeded |
| Hubs.SuccessesAre | services/realtime-gateway/src/ws/hub.ts:68-83 | the count a broadcast returns is the number of its attempts that succeeded |
| Hubs.Hub.JobCount | services/realtime-gateway/src/ws/hub.ts:85-87 | the number of distinct jobs in the relation |
| Hubs.Hub.ClientCount | services/realtime-gateway/src/ws/hub.ts:89-91 | at least the distinct clients in the relation, and equal if and only if no client unsubscribed from everything |
| Servers.Server.OnConnection | services/realtime-gateway/src/server.ts:65-70 | one more open socket, counted |
| Servers.Server.OnMessage | services/realtime-gateway/src/server.ts:72-95 | a message changes the relation and answers as specified, empty job ids and invalid JSON included, with the gauge right afterwards |
| Servers.Server.OnClose | services/realtime-gateway/src/server.ts:97-102 | a closed socket is no longer counted and holds no subscription |
| Servers.Server.OnEvent | services/realtime-gateway/src/index.ts:13-17 | an event is attempted once per subscriber, the delivered counter grows by the successes, and the gauge stays right |
| Servers.SubscribedIffWanted | services/realtime-gateway/src/server.ts:65-103 | over all lives of all connections a client is subscribed if and only if its last word on the job was to subscribe, and only open connections are subscribed |
| Servers.OpenIffNotClosed | services/realtime-gateway/src/server.ts:65-103 | over all lives open are exactly the connections made and not yet closed, and nobody is ever subscribed to the empty job id |
| RealtimeClients.RealtimeClient.Connect | services/web/src/ws.ts:22-25 | a new socket, and closing is forgotten |
| RealtimeClients.RealtimeClient.OnOpen | services/web/src/ws.ts:27-31 | sends one subscribe per subscription, in order, and starts the heartbeat |
| RealtimeClients.RealtimeClient.OnClose | services/web/src/ws.ts:43-49 | clears both timers and schedules one reconnect unless the user closed |
| RealtimeClients.RealtimeClient.Subscribe | services/web/src/ws.ts:54-57 | remembers the job once and sends only on an open socket |
| RealtimeClients.RealtimeClient.Close | services/web/src/ws.ts:69-73 | clears both timers and closes the socket |
| Subscriptions.SubscriptionsConverge | services/web/src/ws.ts:22-57 | in every reachable world with a connection open at both ends, the hub's jobs for it and the subscriptions in flight are together exactly what the browser asked for |
| Subscriptions.BroadcastReachesIffAsked | services/realtime-gateway/src/server.ts:72-95 | with the channel drained a broadcast reaches the browser if and only if it subscribed |
| Subscriptions.OneTimerOneSocket | services/web/src/ws.ts:43-49 | at most one timeout and one interval are running, and no timeout while a socket is live |
| Subscriptions.ClosedForGood | services/web/src/ws.ts:69-73 | after close() nothing is pending, no heartbeat runs, the socket is closing or closed and no other is opened, in any continuation |
| Subscriptions.HeartbeatWhileOpen | services/web/src/ws.ts:30 | in every reachable world an open socket has exactly one heartbeat, each beat puts one ping on the wire, and a connecting or closed one has none |
| Subscriptions.LostAtAnyTime | services/web/src/ws.ts:43-51 | either end may lose the connection at any time; the server then forgets its subscriptions, and the browser keeps its own and sets a timeout unless the user closed |
| Subscriptions.AlwaysComesBack | services/web/src/ws.ts:43-49 | from every reachable world in which the user connected and did not close, a continuation without any step of the user reconnects the client to a world where broadcasts reach it exactly for its subscriptions |
| QueueRunners.App.RunNext | services/web/src/App.tsx:168-176 | up to its first await the runner marks the first queued item active and no other, unless it is already running or nothing is queued |
| QueueRunners.App.Enqueue | services/web/src/App.tsx:178-199 | new items go to the end and the runner is woken |
| QueueRunners.App.ClearFinished | services/web/src/App.tsx:201-203 | keeps exactly the queued and active items |
| QueueRunners.App.OnPolled | services/web/src/App.tsx:94-117 | a poll that finds the job completed or failed resolves with that; one that finds it pending or processing, or fails, sets the next timer, and after the 91st resolves as failed |
| QueueRunners.App.OnReturned | services/web/src/App.tsx:172-175 | the runner goes idle, or starts the next item in the same turn |
| QueueRunners.NoLostWakeup | services/web/src/App.tsx:166-176 | over all interleavings no item is queued while the runner is idle, and at most one is active |
| QueueRunners.ActivatedInOrder | services/web/src/App.tsx:166-176 | items become active exactly once, in the order enqueued, and one not yet active is still queued |
| QueueRunners.OutcomeIsHonest | services/web/src/App.tsx:94-161 | a finished item was rejected on submission, or polled up to the first answer completed or failed, or 91 times; every answer before was pending, processing or none; it shows done exactly if the last was completed |
| QueueRunners.PollGoesOn | services/web/src/App.tsx:103-116 | before the 91st, a poll that finds the job pending or processing, or fails, leaves the item active with the next timer set |
| QueueRunners.PollEnds | services/web/src/App.tsx:103-116 | a poll that finds it completed or failed, or the 91st, is the last, and the item then shows done exactly for completed |
| QueueRunners.EveryItemEnds | services/web/src/App.tsx:94-176 | the runner takes at most 184 turns per item ever enqueued, and has a turn to take until every item is done or in error |
| RateLimiters.RateLimiter.Allow | services/api-gateway/internal/store/redis.go:32-42 | one more on the counter of this key and window, a fresh one if it expired, the expiry set by the call that finds it at one; an error lets the call pass and says so |
| RateLimiters.CountersNeverReset | services/api-gateway/internal/store/redis.go:32-42 | within its own window a bucket's counter always equals its increments, even if setting the expiry failed |
| RateLimiters.PassesIff | services/api-gateway/internal/store/redis.go:41 | an error-free call passes if and only if fewer than limit increments came before it in its window |
| RateLimiters.EveryAnswer | services/api-gateway/internal/store/redis.go:34-41 | a failed increment always lets the call pass with the error; otherwise it passes without one if and only if fewer than limit increments came before it in its window |
| RateLimiters.WindowsAreExact | services/api-gateway/internal/store/redis.go:32-42 | per key and window exactly min(requests, limit) error-free calls pass, at most that if an increment took effect but was reported as an error |
| RateLimiters.IntervalBound | services/api-gateway/internal/store/redis.go:33 | in any half-open interval of m windows at most (m + 1) * limit pass, so twice the limit in one |
| Listings.ListJobs | services/api-gateway/internal/store/postgres.go:112-150 | the row loop returns the page of the join, newest first and by id within one moment, each job with the key of its thumbnail or none; the total is the job count except for an empty first page |
| Listings.HandleList | services/api-gateway/internal/httpapi/handlers.go:235-252 | a missing or non-positive limit reads as 24, one above 100 as 100, a missing or negative offset as 0; that page comes newest first, each job with its thumbnail's key, and with the job count as total, past the end too |
| Listings.JoinIsOnePerJob | services/api-gateway/internal/store/postgres.go:75 | the unique constraint keeps the thumbnail join at one row per job |
| Listings.NewestFirst | services/api-gateway/internal/store/postgres.go:119 | the whole list holds every job once, by falling creation time and by rising id within one moment |
| Listings.TwoThumbsWouldDuplicate | services/api-gateway/internal/store/postgres.go:118 | without it the join would list a job twice |
| Listings.PagesConcatenate | services/api-gateway/internal/store/postgres.go:119-120 | pages 0, L, 2L, ... concatenate to a prefix of the list, and to all of it once they cover it |
| Listings.PagingShowsEachJobOnce | services/api-gateway/internal/httpapi/handlers.go:238-245 | paging a fixed table shows every job exactly once, newest first, ties by id |
| WordCounts.OneMatchPerRun | services/worker-ocr/mediaforge_ocr/ocr.py:19 | leftmost greedy backtracking search finds one match per maximal run of class characters that holds a word character |
| WordCounts.WordCountIsRunCount | services/worker-ocr/mediaforge_ocr/ocr.py:36-42 | the word count is the number of those runs, and a single pass computes it |
| WordCounts.HyphenJoins | services/worker-ocr/mediaforge_ocr/ocr.py:19 | two pieces of word characters count as one word with an apostrophe or a hyphen between them, and as two with any other character that is no word character |
| WordCounts.NoWordNoCount | services/worker-ocr/mediaforge_ocr/ocr.py:19 | a text without word characters has no words, whatever hyphens and apostrophes it has |
| WordCounts.PagesJoin | services/worker-ocr/mediaforge_ocr/ocr.py:93 | pages are joined with a line break, a form feed and a line break between any two |
| WordCounts.PdfCountsAddUp | services/worker-ocr/mediaforge_ocr/ocr.py:89-94 | a PDF's word count is the sum of its pages', its character count the sum plus three per page gap |
| WordCounts.ExtractPdf | services/worker-ocr/mediaforge_ocr/ocr.py:81-104 | the page loop joins the recognised pages and reports those counts |
| Histories.History.Push | services/web/src/history.ts:24-33 | returns at most eight entries, the new one first and none of the others of its job; a refusing store keeps the old list |
| Histories.PushOfCut | services/web/src/history.ts:25 | truncation commutes with the de-duplicating push |
| Histories.LatestMeans | services/web/src/history.ts:25 | the unbounded list holds each pushed job's latest entry once, newest first |
| Histories.EightMostRecent | services/web/src/history.ts:24-33 | after any pushes the list is the eight most recently pushed distinct jobs, newest first |

## Left out

- Transports: AMQP, PostgreSQL, Redis, S3 and WebSocket clients appear only as the state change of each call and its possible failure.
- Image codecs, scaling, Tesseract and PDF rasterising are deterministic functions that may fail; a transform that is not deterministic is outside the model.
- Tracing, logging, metrics endpoints, configuration loading, deployment files, React rendering and authentication.
- The `error` and `updated_at` columns, MIME types of sources, message texts and timestamps of events.
- Decoding of bodies: a body is a job of its queue's kind or undecodable. A JSON body that decodes to other things, such as a list (which the OCR worker does not catch) or an object without an id (which the image worker accepts), is not modelled.
- Ids are assumed fresh and slash-free, as UUIDs are; the broker is assumed to dead-letter atomically and to keep stored messages.
- An ack or nack that is lost is a lost connection before it; the model has no ack that the broker took but then forgot.
- Clusters.Cluster.Others: ends no attempt of its own slot; a crash of the handler under study is the method's execution stopping between two calls, where its last postcondition speaks.
- Workers.ImageWorker.OnDelivery: the receive loop around it, prefetching and shutdown are not modelled; any number of slots stands for any number of workers and prefetched deliveries.
- Workers.ImageWorker.Work: the source's one function is split into five methods, in the same order of statements.
- Workers.OcrWorker.Work: the source's one function is split into five methods, in the same order of statements.
- Topologies.Broker.DeclareTopology: declares the image queue before the OCR queue; the Go services take these two in either order, both before the retry queue.
- Labels.SettlementsAreCounted: says nothing of the converse; a run whose worker crashed, or lost its connection, before settling is counted too.
- The realtime gateway's event consumer and its queue: events reach the hub in any order as far as the hub and server theorems go.
- Servers.Server.OnMessage: a JSON message that is not an object, or a job id that is not a string, is not modelled.
- Subscriptions.SubscriptionsConverge: the user calls connect() once, as the application does; timer delays are not modelled, only their order.
- QueueRunners.EveryItemEnds: requests are assumed to settle and browser calls outside the try block not to throw; the panel state and polls started by loading an old job do not touch the queue.
- RateLimiters.IntervalBound: clock read and increment count as one step on one shared clock; the key and bucket are a pair instead of a formatted string.
- Listings.PagingShowsEachJobOnce: the table is fixed while paging; presigned URLs are left out.
- WordCounts.ExtractPdf: the page limit and the mean confidence, a rounded float, are left out.
- Histories.History.Read: a stored value that parses to something other than a list is not modelled.
- resolveKind, parseOperations, parseParams, content-type detection and the reconnect back-off of the broker connection would only add single-branch facts.
