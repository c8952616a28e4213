# A verified model of truenas_pyjsonrpc

This project models the shared state of the JSON-RPC dispatch engine and the protocols built on
top of it, and proves what they keep over every input, every run and every interleaving. It has
seven parts:

* **Redaction** (`Schemas`, `SecretPaths`, `Redaction`, `RedactionProofs`, `RedactionMeaning`,
  `RedactionLimits`, `RedactionLeaks`, `Redactors`): a schema, possibly recursive, is compiled to a
  plan; the plan is laid over the builtins copy of a value so that no secret reaches an audit record.
* **Framing and byte movers** (`Framing`, `Movers`): length-prefixed messages, and the loops over
  short reads, writes and splices.
* **Raw-fd transfer handshake** (`Handshake`, `HandshakeInvariant`, `HandshakeProofs`,
  `HandshakeSafety`, `HandshakeRuns`, `HandshakeLimits`, `HandshakeFaults`): two ends, two byte
  streams, and a reader task on each end that takes bytes into user space whenever it is not paused.
  Frames and stream bytes are the same bytes on the wire.
* **Back channel** (`BackChannel`, `BackChannelRuns`, `BackChannelProofs`, `BackChannelSafety`,
  `Sessions`): the outbound queue, the in-flight registry and the subscriptions behind one
  condition variable. Each locked block is one atomic step.
* **Dispatch, audit and session setup** (`Dispatch`, `DispatchAnswers`, `Audit`, `AuditRecords`,
  `AuditLimits`, `Auth`, `AuthStacks`, `AuthAnswers`, `AuthProofs`, `AuthSafety`): reply discipline, the
  session gate, the audit trail, and the authentication stack with verifiers that may answer, or raise,
  whatever they like.
* **The way to the wire** (`WireOrder`, `Connections`): drain threads, session registry, event loop,
  connection queue, writer gate and close sentinel.
* **Client** (`Clients`, `ClientSubs`, `BaseClients`): correlation of calls and responses, routing of
  other messages, and the subscription index.

Two products join the parts: `Delivery`, with `DeliveryRuns`, runs the back channel's machine and the
wire's machine together, with the drain thread's poll as a step of both, and `Dialogues` runs dispatch
with the authentication stack's handlers as its setup answers. `Guarantees` states what follows.

`dafny verify dfyconfig.toml` checks the whole project.

Where the source changes objects in place the model does too: the classes of `Redactors`, `Framing`,
`Movers`, `BackChannel`, `AuthStacks`, `Audit`, `Dispatch`, `Connections` and `BaseClients` have the
source's fields, and their methods are proved against functions on values. The same functions drive
the state machines over which runs and interleavings are quantified.

## Findings

Each is a place where the code does not do what its documentation or its purpose promises. The exact
condition is proved, and an input or a run is given.

* `redaction.py:88-92`, `redaction.py:135-140`: an arm of a union that is wrapped in metadata, a struct
  or a union of structs, keeps no tag in the plan. When some bare tagged struct arm has a plan, and only
  then, its values go through unmasked (`RedactionLimits.WrappedArmEscapes`); in
  `Annotated[A, SECRET] | B` nothing of `A` is masked (`RedactionLeaks.WrappedArmLeaks`). Between two
  wrapped arms no tag decides. That is harmless as long as, of the keys of either class, the other's
  plan has none or masks what the class's own plan masks (`RedactionProofs.FoldMembers`); otherwise one
  arm's plan can read another arm's secret as a tag (`RedactionLeaks.CrosstalkLeaks`).
* `redaction.py:66-75`, `redaction.py:111-116`: an `array_like` struct gets a struct plan, which only
  works on dicts; its values are lists and go through as they are, under every class stack
  (`RedactionLeaks.ArrayStructEscapes`, `RedactionLeaks.ArrayStructLeaks`).
* `redaction.py:44-46`: the documentation of `compile_plan` promises `None` for a class without secret
  fields anywhere, but a class that is reachable from itself gets a plan even without any secret
  (`RedactionLeaks.CleanClassWithPlan`); `None` comes exactly when there is neither
  (`RedactionMeaning.NoPlanExactlyWhenClean`).
* `transfer.py:140-149`: `recvfile` ignores how much a file object's `write` took. What the target gets
  is the received stretch of the stream if and only if every write took its whole chunk
  (`Movers.RecvFile`, `Movers.ExactIffWhole`); a raw file that takes one of two bytes loses one
  (`Movers.ShortWriteLosesAByte`).
* `client.py:556-560`: when the server's `$/transferReady` and its final response are both parsed
  before the waiting task wakes, the client takes the final response for a rejection. This can happen
  to an accepted transfer exactly when it is an empty upload
  (`HandshakeSafety.AcceptedFailsOnlyWhenEmpty`).
* `client.py:572-579`: a preparation that is cancelled or times out is meant not to wedge the
  connection. If the server has said ready to a download, or to an upload that is not empty, its
  writer is held for as long as the client sends nothing, and only then
  (`HandshakeLimits.AbandonHoldsTheWriter`); what the client sends next is taken for the stream or
  for the go (`HandshakeLimits.NextFrameIsSwallowed`).
* `connection.py:242-255`, `client.py:256-271`: a transfer's callback that ends before the whole stream
  has gone through lets a framing reader at raw bytes or a consumer at frames. On the server it may
  return or raise; on the client a raise tears the connection down, but a return does not. For each end
  and each direction that happens in no continuation if and only if the whole stream has gone through
  (`HandshakeFaults.ServerUploadEndsEarly`, `ServerDownloadEndsEarly`, `ClientUploadEndsEarly`,
  `ClientDownloadEndsEarly`), or, for the server's upload, the client has given up.
* `protocol.py:355-360`: a message that has passed the closed-session check and subscribes after the
  session's close has finished leaves a subscription behind (`Sessions.PipelinedCloseLeaks`). A close
  keeps its promise in every interleaving if and only if none of the session's messages is past the
  check when it closes (`Sessions.CloseHoldsIffNothingInside`); `connection.py:262-263` only detaches
  a dispatch still running in the executor. In the same way a setup whose handler returns after its
  session was closed opens the session again (`protocol.py:1048-1056`), and a closed session stays closed
  if and only if nothing of it is past the check (`Sessions.ClosedStaysIffNothingInside`).
* `protocol.py:856-860`: an interim result that `to_builtins` does not convert raises out of dispatch,
  and so do a response that does not encode (`protocol.py:594`) and an audit that is run in dispatch and
  cannot copy the params or the result; `connection.py:121-124` drops the exception. A valid id gets its
  reply if and only if none of them happens (`Dispatch.RepliesAreDisciplined`); the first leaves no audit
  record either (`Dispatch.UnconvertedInterimIsSilent`).
* `protocol.py:521-540`: the redaction of an audit job copies its params and its result to builtins
  outside any guard, when there is a plan for them. A `returns` class with an unrestricted field beside a
  secret one is enough for it to raise. Without a queue such a job has no record and its message no
  reply (`AuditLimits.UnconvertibleResultIsLost`, `UnconvertibleParamsAreLost`, `UnconvertibleTransferIsLost`). With one,
  `server.py:333-337` lets the drain thread die, and a job is recorded if and only if neither it nor any
  job before it raises (`Audit.DrainedExactly`, `AuditLimits.QueueLosesTheRest`); draining gives the
  record sequence of inline mode if and only if no job that could be recorded comes behind one that
  raises (`Audit.DrainedIsInlineIff`).
* `connection.py:214-251`: a transfer that dispatch let proceed is not audited exactly when its interim
  result does not convert, the connection is gone, refuses it or the handshake breaks
  (`Dispatch.TransferAuditedUnlessGuarded`), for instance when fds are to be passed over TCP
  (`Dispatch.FdPassOverTcpIsUnaudited`).
* `stack.py:335-352`: when `scram_finish` raises, the challenge stays in the session and the next
  client-final finishes it again, and only then (`AuthSafety.RaisedChallengeIsReused`); when it
  returns, one challenge is finished once (`AuthSafety.ScramFinishesOnce`).
* `stack.py:228`: a new attempt takes whatever the session holds for its peer. That is the connection's
  own peer if and only if no earlier attempt got as far as a pending step; after one, the channel has no
  capability and the identity gets no origin (`AuthSafety.PendingForgetsThePeer`). A login over TLS that
  is rejected cannot be repeated (`AuthSafety.RejectedLoginLosesItsChannel`).
* `client.py:482-499`, `client.py:606-607`: the loss of the connection fails the calls that wait when the
  read loop ends. A call that waits can be answered or failed if and only if the loop still runs, so one
  that is made later waits until it times out (`Clients.SettlesIffConnected`).
* `client.py:513-515`: the subscription index stays exact exactly when a subscribe is answered with a
  string that is not the id of a subscription still held (`ClientSubs.AckKeepsIffFresh`).

## Model

| member | source | states |
|---|---|---|
| `RedactionProofs.NonInterference` | python/truenas_pyjsonrpc/redaction.py:56-147 | for every well-formed, possibly recursive schema whose plan reaches its secrets (no array-like struct with a plan and no union that cannot tell an arm, wherever there is a secret to hide) and under every class stack, two values that differ only inside non-null secret positions redact to the same view |
| `RedactionProofs.UnionActsAsItsArm` | python/truenas_pyjsonrpc/redaction.py:81-92 | a union's plan does to a value of an arm it can tell what that arm's own plan does, or masks it whole exactly when a secret arm stands beside it and no tag tells them apart; wrapped struct arms are included where their own arm is selected or nothing else touches them |
| `RedactionProofs.FoldMembers` | python/truenas_pyjsonrpc/redaction.py:141-143 | the untagged fold over all members comes to one arm's plan wherever every other member leaves values of that arm alone or masks no more of their keys than the arm's own plan, wrapped struct arms included |
| `RedactionProofs.FoldMasks` | python/truenas_pyjsonrpc/redaction.py:141-143 | a fold with a secret arm masks every value that is not null, whatever the other members are |
| `RedactionLimits.WrappedArmEscapes` | python/truenas_pyjsonrpc/redaction.py:88-92 | a value of a struct in an arm wrapped in metadata, be it a struct or a union of structs, goes through a union as it is when some bare tagged struct arm has a plan, and, if its own arm's plan would have changed it, only then |
| `RedactionLeaks.WrappedArmLeaks` | python/truenas_pyjsonrpc/redaction.py:135-140 | in a union of a secret struct and another one with a secret, values of the first stay as they are and so tell their secret |
| `RedactionLeaks.ArrayStructEscapes` | python/truenas_pyjsonrpc/redaction.py:111-116 | every value of an array-like class goes through its own plan unmasked, under every class stack |
| `RedactionLeaks.ArrayStructLeaks` | python/truenas_pyjsonrpc/redaction.py:66-75 | an array-like class with a secret field has a plan for it, and two values with different secrets redact differently |
| `RedactionLeaks.CrosstalkLeaks` | python/truenas_pyjsonrpc/redaction.py:141-143 | two wrapped arms without a tag: values that differ only inside a secret give different views, because one arm's plan reads the other's secret as a tag |
| `RedactionLimits.ApplyOnlyMasks` | python/truenas_pyjsonrpc/redaction.py:106-147 | whatever the plan and the value, the result is the value with parts masked and tuples turned into lists, and nothing else |
| `RedactionLimits.RedactionSettles` | python/truenas_pyjsonrpc/redaction.py:56-147 | redacting twice is redacting once, for every schema, class stack and value, conforming or not, unless a class is tagged with the mask itself |
| `RedactionLeaks.MaskTagRedactsTwice` | python/truenas_pyjsonrpc/redaction.py:106-147 | with a class tagged with the mask itself, redacting twice can mask more than redacting once |
| `RedactionMeaning.PlanComputesView` | python/truenas_pyjsonrpc/redaction.py:56-147 | compiling and applying gives the view read straight off the schema (keys, lengths and non-secret values kept, secrets masked), up to tuples that become lists, for every covered schema where no masked arm stands beside another non-null arm, unrestricted arms included |
| `RedactionMeaning.RedactIsIdempotent` | python/truenas_pyjsonrpc/redaction.py:95-147 | on values of a covered schema redacting twice equals redacting once whatever the tags, also where a union is masked whole |
| `RedactionMeaning.NoPlanExactlyWhenClean` | python/truenas_pyjsonrpc/redaction.py:44-93 | there is no plan exactly when no path through the schema, of any length and through any classes, leads to a secret or back to a class it came from |
| `RedactionLeaks.CleanClassWithPlan` | python/truenas_pyjsonrpc/redaction.py:63-65 | a class that holds itself and no secret has a plan all the same |
| `RedactionMeaning.PlanHasCause` | python/truenas_pyjsonrpc/redaction.py:56-93 | whenever there is a plan there is a path to a secret, or one that comes back to a class, and the search for it halts because the class stack grows inside the finite class environment |
| `RedactionMeaning.NoPlanNoSecret` | python/truenas_pyjsonrpc/redaction.py:56-93 | without a plan no secret position is reachable at any depth |
| `Redaction.Apply` | python/truenas_pyjsonrpc/redaction.py:106-147 | interpretation halts although `recurse` and `union` re-enter on the same value: results are never deeper than the value, and null exactly when it is null |
| `Redaction.ApplyAll` | python/truenas_pyjsonrpc/redaction.py:141-143 | the best-effort fold halts and never deepens a value, each member working on the last one's result |
| `Redactors.Redactor.CachedPlan` | python/truenas_pyjsonrpc/redaction.py:44-53 | a cached or freshly compiled plan is the plan of its class, and the cache holds only such plans |
| `Redactors.Redactor.Overlay` | python/truenas_pyjsonrpc/redaction.py:106-147 | the in-place overlay with its loops and its cache computes the functional interpretation |
| `Redactors.Redactor.OverlayStruct` | python/truenas_pyjsonrpc/redaction.py:111-116 | writing planned keys into the copy one by one gives the struct's redacted copy, whatever the order |
| `Framing.NumberRoundTrip` | python/truenas_pyjsonrpc_server/framing.py:15-25 | big-endian packing and unpacking is the identity on every number that fits the width |
| `Framing.PackUnpack` | python/truenas_pyjsonrpc_server/framing.py:15-25 | every four bytes are the packing of the length they unpack to, so no two headers mean the same |
| `Framing.HeaderBytes` | python/truenas_pyjsonrpc_server/framing.py:15-25 | the first of a header's four bytes is the most significant one |
| `Framing.RoundTrip` | python/truenas_pyjsonrpc_server/framing.py:23-43 | the concatenated frames of any payloads within the limit read back as those payloads and then the end of the stream |
| `Framing.Truncation` | python/truenas_pyjsonrpc_server/framing.py:28-43 | cutting the stream anywhere yields exactly the payloads whose frames are whole, and never another one |
| `Framing.OversizeStops` | python/truenas_pyjsonrpc_server/framing.py:37-39 | the first frame over the limit ends the reading with its length after every payload before it was delivered |
| `Framing.ReadMessage` | python/truenas_pyjsonrpc_server/framing.py:28-43 | one read takes one whole message off the stream, or reports the end or an oversized length |
| `Movers.RecvFile` | python/truenas_pyjsonrpc/transfer.py:123-149 | for every schedule of short splices, reads and writes: it raises if and only if a splice call that is not the first one fails, and falls back to the copy when the kernel rejects the first; the count is that of the bytes read, below `count` only at the end of the stream; a descriptor or a buffered file has got exactly those bytes; any file object has got them if and only if every write took its whole chunk |
| `Movers.ExactIffWhole` | python/truenas_pyjsonrpc/transfer.py:140-149 | the bytes a file object has got are the bytes read if and only if no write was short |
| `Movers.ShortWriteLosesAByte` | python/truenas_pyjsonrpc/transfer.py:140-149 | two bytes arrive, a raw file takes one, and two are reported |
| `Movers.SpliceSocketToFd` | python/truenas_pyjsonrpc/transfer.py:35-64 | what came off the socket and what reached the descriptor are the sums of the splice calls made; the path refuses if and only if there is no splice or the very first call is rejected, raises if and only if a call out of the pipe fails or one into it after a byte has moved, and else moves the same bytes as the simple copy |
| `Movers.WriteAll` | python/truenas_pyjsonrpc/transfer.py:26-32 | short writes lose and repeat nothing |
| `Movers.SendFile` | python/truenas_pyjsonrpc/transfer.py:107-121 | exactly the counted stretch of the file is sent, less only when the file ends or the peer is gone |
| `HandshakeProofs.StepKeeps` | python/truenas_pyjsonrpc_server/connection.py:188-255 | every action of the client, the server, either reader task and the kernel, a client that abandons its preparation included, keeps the invariant that says what every byte under way is and where the two ends can be at the same time |
| `HandshakeProofs.BufferedFrame` | python/truenas_pyjsonrpc_server/framing.py:28-43 | whatever a reader has buffered, its next message is the oldest pending frame or not yet whole, and never stream bytes |
| `HandshakeSafety.TransferIsSafe` | python/truenas_pyjsonrpc_client/client.py:530-592 | in every interleaving, abandoned preparations included, no raw byte is taken by a framing reader, no frame sits inside the stream, and the consumer has a prefix of the producer's bytes, for uploads and downloads |
| `HandshakeSafety.CompletedDelivers` | python/truenas_pyjsonrpc_server/connection.py:206-255 | a transfer reported as completed gave its consumer exactly the producer's bytes, and both readers run again on a frame boundary |
| `HandshakeRuns.TransferCanComplete` | python/truenas_pyjsonrpc_client/client.py:530-592 | for either direction and every stream there is a run, from request to final response, that ends completed with the stream delivered and both ends ready for another transfer |
| `HandshakeRuns.OrdinaryFramesArrive` | python/truenas_pyjsonrpc_server/connection.py:188-204 | an ordinary frame of either end reaches the other one's reader in some run |
| `HandshakeSafety.AcceptedFailsOnlyWhenEmpty` | python/truenas_pyjsonrpc_client/client.py:554-561 | an accepted transfer that its client does not abandon can be reported as failed if and only if it is an upload and its stream is empty |
| `HandshakeLimits.AbandonHoldsTheWriter` | python/truenas_pyjsonrpc_client/client.py:572-579 | after the client has abandoned a transfer and while it sends nothing more, the server's writer is held in every continuation if and only if the server has said ready to a download or to an upload that is not empty |
| `HandshakeLimits.NextFrameIsSwallowed` | python/truenas_pyjsonrpc_server/connection.py:231-237 | in every such state the next frame the client sends is read as the stream by an upload's consumer, and breaks off a download's wait for the go |
| `HandshakeFaults.ServerUploadEndsEarly` | python/truenas_pyjsonrpc_server/connection.py:242-255 | if an upload's callback on the server ends at any reachable point, frames and stream stay apart in every continuation if and only if it has received the whole stream or the client has given up |
| `HandshakeFaults.ServerDownloadEndsEarly` | python/truenas_pyjsonrpc_server/connection.py:242-255 | if a download's callback on the server ends at any reachable point, its client takes no frame for the stream in any continuation if and only if the whole stream has been produced |
| `HandshakeFaults.ClientUploadEndsEarly` | python/truenas_pyjsonrpc_client/client.py:256-271 | if an upload's callback on the client returns at any reachable point, the server takes no frame for the stream in any continuation if and only if the whole stream has been produced |
| `HandshakeFaults.ClientDownloadEndsEarly` | python/truenas_pyjsonrpc_client/client.py:256-271 | if a download's callback on the client returns at any reachable point, frames and stream stay apart in every continuation if and only if it has received the whole stream |
| `BackChannel.Protocol.UpdateProgress` | python/truenas_pyjsonrpc/protocol.py:643-669 | progress of a request in flight is counted and queued for its session; late progress and progress without an id change nothing |
| `BackChannel.Protocol.Enter` | python/truenas_pyjsonrpc/protocol.py:1196-1201 | a request with an id is registered with count zero, one without is not |
| `BackChannel.Protocol.Leave` | python/truenas_pyjsonrpc/protocol.py:685-696 | completion drops the request and, when its count is not zero, its queued progress and nothing else |
| `BackChannel.Protocol.SendNotification` | python/truenas_pyjsonrpc/protocol.py:597-620 | the fan-out loop appends one message per subscription of the topic, in order |
| `BackChannel.Protocol.AddSubscription` | python/truenas_pyjsonrpc/protocol.py:1181-1186 | a subscription is appended to its topic, and ids stay unique |
| `BackChannel.Protocol.RemoveSubscription` | python/truenas_pyjsonrpc/protocol.py:622-628 | stopping at the first topic that has the id removes it everywhere; the result says whether it existed |
| `BackChannel.Protocol.RemoveAllOf` | python/truenas_pyjsonrpc/protocol.py:630-641 | exactly the session's subscriptions go, and the result is their number |
| `BackChannel.Protocol.PollNotification` | python/truenas_pyjsonrpc/protocol.py:671-683 | the oldest queued message comes out, with its session |
| `BackChannel.Protocol.FindTarget` | python/truenas_pyjsonrpc/protocol.py:1081-1101 | a cancel's id names a request in flight, else a subscription, else nothing |
| `BackChannel.Protocol.SetCancelled` | python/truenas_pyjsonrpc/protocol.py:1132-1138 | the event is set; a request that has completed meanwhile leaves the registry as it is |
| `BackChannel.CountIds` | python/truenas_pyjsonrpc/protocol.py:636-640 | with unique ids the removals counted topic by topic are the ids the session owned |
| `BackChannelProofs.StepKeeps` | python/truenas_pyjsonrpc/protocol.py:597-696 | every locked block keeps order, conservation, counts and the subscription registry |
| `BackChannelSafety.OutboundIsConserved` | python/truenas_pyjsonrpc/protocol.py:597-696 | over every run each enqueued message is exactly one of delivered, queued or purged; delivered then queued keep the order of enqueuing; only progress of a completed request is purged, never a published message |
| `BackChannelSafety.CompletionSilences` | python/truenas_pyjsonrpc/protocol.py:643-696 | after a request completes no later poll returns its progress, whatever other threads do |
| `BackChannelSafety.ScanIsSkippable` | python/truenas_pyjsonrpc/protocol.py:685-696 | in every reachable state skipping the scan at count zero equals always filtering |
| `BackChannelSafety.CountsAreExact` | python/truenas_pyjsonrpc/protocol.py:664-669 | a request's count is the number of its messages ever enqueued and bounds those queued; queued progress belongs to a request in flight on the session it goes to |
| `BackChannelSafety.SubIdsAreUnique` | python/truenas_pyjsonrpc/protocol.py:1181-1186 | subscription ids are unique across topics in every reachable state |
| `BackChannelSafety.FlightsAreAsBegun` | python/truenas_pyjsonrpc/protocol.py:1132-1138 | over every run a request in flight has the session it was begun with, can be cancelled exactly when it was begun so, and its event is set exactly when it was signalled |
| `BackChannelSafety.PublishReachesTheLive` | python/truenas_pyjsonrpc/protocol.py:614-620 | a publish appends exactly one message per subscription made on the topic and not dropped since, to its session, in the order they were made |
| `Sessions.ClosedOwnsNothing` | python/truenas_pyjsonrpc/protocol.py:355-360 | when a session's messages and closes run in turn, no session whose close has finished owns a subscription, whatever other sessions do in between |
| `Sessions.PipelinedCloseLeaks` | python/truenas_pyjsonrpc/protocol.py:1058-1079 | without that order there is a run that leaves a closed session with a subscription |
| `Sessions.CloseHoldsIffNothingInside` | python/truenas_pyjsonrpc/protocol.py:355-360 | from any world, a closed session owns no subscription in any continuation if and only if none of its messages was past the check when it closed |
| `Sessions.ClosedStaysIffNothingInside` | python/truenas_pyjsonrpc/protocol.py:1048-1056 | a closed session stays closed in every continuation if and only if none of its messages is past the check: the setup of one that is opens it again |
| `AuthStacks.AuthStack.OnSetup` | python/truenas_pyjsonrpc/mixins/auth/stack.py:226-246 | the in-place setup handler leaves the state, asks the verifiers and replies as the specification says; a verifier that raises leaves the session untouched |
| `AuthStacks.AuthStack.OnContinue` | python/truenas_pyjsonrpc/mixins/auth/stack.py:248-271 | the same for a continue, with the pending holder of each mechanism |
| `AuthStacks.AuthStack.Control` | python/truenas_pyjsonrpc/protocol.py:961-1079 | setup only from NONE, continue only from INIT, nothing once closed; the lifecycle moves only with a returned result, and a verifier that raises a JSON-RPC error gives its own code |
| `AuthAnswers.SetupAnswers` | python/truenas_pyjsonrpc/mixins/auth/stack.py:226-404 | a setup asks peer credentials exactly over AF_UNIX, and the mechanism's own verifier exactly when they decline or are not asked and the channel has what the mechanism requires; the last answer decides the session, the recorded identity and the reply; without one the setup fails and changes nothing |
| `AuthAnswers.ContinueAnswers` | python/truenas_pyjsonrpc/mixins/auth/stack.py:248-404 | a continue asks the verifier whose own step is pending, with what that step stored, and its answer decides; without one it fails and changes nothing; only a one-time token may come again after an AUTH_ERR |
| `AuthAnswers.CapabilitiesAre` | python/truenas_pyjsonrpc/mixins/auth/stack.py:197-214 | each capability of a channel by what its peer must have for it |
| `Dialogues.OneMoveAgrees` | python/truenas_pyjsonrpc/protocol.py:961-1079 | dispatch and the stack's own account of a control message move the lifecycle alike and reply alike, and other messages leave the lifecycle alone |
| `Dialogues.LifecyclesAgree` | python/truenas_pyjsonrpc/protocol.py:1002-1056 | over every dialogue the lifecycle that dispatch keeps is that of the stack's history |
| `AuthSafety.EstablishedByVerifier` | python/truenas_pyjsonrpc/mixins/auth/stack.py:226-352 | an established session's last attempt ended with a verifier's acceptance; its identity has every field that verifier gave, its own `origin` included, and otherwise only an `origin`, which is the address of the attempt's peer, else its uid, else its pid; and after a demand for a second factor the accepting verifier was `otp` |
| `AuthSafety.AcceptanceDecides` | python/truenas_pyjsonrpc/mixins/auth/stack.py:273-291 | a message establishes a session if and only if the last verifier it called accepted |
| `AuthSafety.ChallengesAreFresh` | python/truenas_pyjsonrpc/mixins/auth/stack.py:248-271 | at INIT the session holds what this attempt's verifiers stored last, and every verifier got the pending value its own mechanism stored last in this attempt |
| `AuthSafety.ScramFinishesOnce` | python/truenas_pyjsonrpc/mixins/auth/stack.py:324-352 | unless it raises, `scram_finish` is called at most once in an attempt |
| `AuthSafety.RaisedChallengeIsReused` | python/truenas_pyjsonrpc/mixins/auth/stack.py:335-340 | after every history that waits for a client-final, that message leaves the session as it is if and only if `scram_finish` raises, and exactly then the next client-final finishes the same challenge again |
| `AuthSafety.IdentityIsKept` | python/truenas_pyjsonrpc/protocol.py:961-1056 | once established, no later message changes the identity; the session can only close |
| `AuthSafety.PendingForgetsThePeer` | python/truenas_pyjsonrpc/mixins/auth/stack.py:226-240 | while a session can start an attempt it holds its connection's peer if and only if no earlier attempt reached a pending step; after one it has no channel capability and no origin |
| `AuthSafety.RejectedLoginLosesItsChannel` | python/truenas_pyjsonrpc/mixins/auth/stack.py:226-240 | a SCRAM login over TLS that is rejected leaves its holder behind, and the same login is then refused for want of an encrypted channel |
| `AuthSafety.ChannelIsChecked` | python/truenas_pyjsonrpc/mixins/auth/stack.py:228-246 | no login mechanism reaches its verifier on a channel without the capabilities it requires, and peer credentials are asked only over AF_UNIX |
| `Dispatch.Protocol.DispatchOne` | python/truenas_pyjsonrpc/protocol.py:699-811 | the pipeline gives every message, under every configuration and every answer of the callbacks, an interim result that does not convert and an audit that raises included, the reply, effects, lifecycle and audit jobs it is owed |
| `Dispatch.Protocol.Dispatch` | python/truenas_pyjsonrpc/protocol.py:578-594 | the same after encoding: a response that holds what a callback gave and does not encode raises after everything else was done |
| `Dispatch.Protocol.HandleCall` | python/truenas_pyjsonrpc/protocol.py:757-811 | the same for registered methods, topics and transfers |
| `Dispatch.Protocol.HandleSetup` | python/truenas_pyjsonrpc/protocol.py:961-1056 | the same for setup and continue; the lifecycle moves only with a converted result |
| `Dispatch.Protocol.HandleCancel` | python/truenas_pyjsonrpc/protocol.py:907-929 | the same for a cancel, audited whatever it comes to once its params decode |
| `Dispatch.Protocol.AuthorizeAndDispatch` | python/truenas_pyjsonrpc/protocol.py:1150-1240 | the response and the audit detail are those owed, and the handler runs only with leave |
| `Dispatch.Protocol.BeginTransfer` | python/truenas_pyjsonrpc/protocol.py:814-867 | a transfer starts exactly when it is authorised, negotiated and its interim result converts; a refusal is audited here, and that may raise as the conversion may |
| `Dispatch.Protocol.ServeTransfer` | python/truenas_pyjsonrpc_server/connection.py:206-255 | dispatch, the connection's guards, the handshake and the second half with its audit give a transfer request the response and the audit jobs it is owed |
| `DispatchAnswers.EveryMessageIsAnswered` | python/truenas_pyjsonrpc/protocol.py:699-767 | every message of an open session is either refused beforehand, with the code of the first guard that fails, or answered as one of the following rows says |
| `DispatchAnswers.RefusalAnswers` | python/truenas_pyjsonrpc/protocol.py:699-790 | a message refused beforehand gets the code of the first guard that fails, changes nothing and is not audited |
| `DispatchAnswers.NoteAnswers` | python/truenas_pyjsonrpc/protocol.py:745-790 | a refused message without an id is dropped in silence, except that one that wants an id is told so, a transfer only once it is admitted |
| `DispatchAnswers.CallAnswers` | python/truenas_pyjsonrpc/protocol.py:1150-1240 | a call's result is the validator's replacement if it made one, else the converted value if the method has a `returns` class, else what the handler gave; a JSON-RPC error keeps its code, a failed conversion or validator is INTERNAL_ERROR; the audit job has the request's own id, the params as the validator left them, that response and the handler's detail |
| `DispatchAnswers.TopicAnswers` | python/truenas_pyjsonrpc/protocol.py:1150-1190 | a subscribe that has leave is answered with the subscription's id |
| `DispatchAnswers.TransferAnswers` | python/truenas_pyjsonrpc/protocol.py:814-867 | a transfer begins exactly with leave, an interim result and its conversion; a denial or a failed `negotiate` is answered with its code and audited at once |
| `DispatchAnswers.TransferEnds` | python/truenas_pyjsonrpc/protocol.py:869-905 | a transfer whose connection carries it is answered with the validator's replacement, else the converted value of the callback's result; an error keeps its code; it is audited once with the params of its request |
| `DispatchAnswers.CancelAnswers` | python/truenas_pyjsonrpc/protocol.py:1089-1148 | a cancel says `True` exactly when it dropped a subscription or signalled a request whose callback did not raise; what cannot be found or cancelled is REQUEST_FAILED without any effect |
| `DispatchAnswers.HandshakeAnswers` | python/truenas_pyjsonrpc/protocol.py:961-1056 | a setup or continue in its turn moves the lifecycle exactly when its handler returned a lifecycle and a result that converts, and that result is the answer |
| `DispatchAnswers.CloseAnswers` | python/truenas_pyjsonrpc/protocol.py:1058-1079 | a close of a session that has begun always succeeds, closes it and is audited |
| `DispatchAnswers.InfoAnswers` | python/truenas_pyjsonrpc/protocol.py:931-959 | the server information is the converted result of its handler, and is never audited |
| `Dispatch.TransferAuditedUnlessGuarded` | python/truenas_pyjsonrpc_server/connection.py:214-251 | an authorised and negotiated transfer is not audited if and only if its interim result does not convert, the connection is gone, refuses it or the handshake breaks; a refusal replies with its id; any other is audited once, with the response that is sent, and leaves its record if and only if its redaction does not raise |
| `Dispatch.FdPassOverTcpIsUnaudited` | python/truenas_pyjsonrpc_server/connection.py:214-217 | passing fds over TCP is refused with REQUEST_FAILED and leaves no audit record |
| `Dispatch.RepliesAreDisciplined` | python/truenas_pyjsonrpc/protocol.py:588-767 | a valid id gets exactly one reply with that id, a result, an error or a transfer, if and only if no interim result fails to convert, no audit run in dispatch to copy its job and no callback's response to encode; no id gets nothing or INVALID_REQUEST with a null id; a malformed id is refused |
| `Dispatch.UnconvertedInterimIsSilent` | python/truenas_pyjsonrpc/protocol.py:856-860 | an open, audited upload whose interim result does not convert gets no reply and leaves no record |
| `Dispatch.GateHolds` | python/truenas_pyjsonrpc/protocol.py:740-775 | with setup configured no handler, subscribe or negotiation of a method that is not `pre_auth` runs outside ESTABLISHED, none without leave, and none on a closed session |
| `Dispatch.ServedOnlyWhileEstablished` | python/truenas_pyjsonrpc/protocol.py:769-775 | over every dialogue such a method runs only after a setup handler established the session, with no close or new setup in between |
| `Dispatch.NothingAfterClose` | python/truenas_pyjsonrpc/protocol.py:740-743 | after a close no message of the session has any effect, and the session stays closed |
| `Dispatch.AuditShowsTheReply` | python/truenas_pyjsonrpc/protocol.py:802-811 | a message that is audited in dispatch is audited once, with the response that is sent unless that does not encode or the audit raises; without a queue it leaves its record if and only if its redaction does not raise |
| `Audit.AuditHidesSecrets` | python/truenas_pyjsonrpc/protocol.py:521-540 | where the plans of the method's schemas reach their secrets, two audited messages that differ only inside the secrets of their params and result give the same audit record |
| `AuditRecords.RecordShows` | python/truenas_pyjsonrpc/protocol.py:521-556 | a record keeps its job's method, ids and failure, and the params and the result where there is no plan; its message is the method's text and the detail, joined by a blank when neither is empty |
| `AuditRecords.RecordShowsViews` | python/truenas_pyjsonrpc/protocol.py:521-540 | for conforming values of covered, strict schemas the record's params and result are the view read straight off the schema, up to tuples that become lists |
| `Audit.Trail.Add` | python/truenas_pyjsonrpc/protocol.py:506-519 | a job is queued, or recorded at once unless its redaction raises |
| `Audit.Trail.DrainOne` | python/truenas_pyjsonrpc/protocol.py:492-504 | a poll takes the oldest job off the queue before its redaction can raise, and records it if it does not |
| `Audit.Trail.Drain` | python/truenas_pyjsonrpc/protocol.py:492-504 | the drain thread records the queued jobs up to the first whose redaction raises, which ends it; it lives if and only if none raises |
| `Audit.DrainedExactly` | python/truenas_pyjsonrpc_server/server.py:333-337 | a queued job is recorded, in its place, if and only if neither it nor any job before it raises |
| `Audit.DrainedIsInlineIff` | python/truenas_pyjsonrpc/protocol.py:492-519 | draining gives the record sequence of inline mode if and only if no job that could be recorded comes behind one that raises; in either mode every job is recorded if and only if none raises |
| `AuditLimits.UnconvertibleResultIsLost` | python/truenas_pyjsonrpc/protocol.py:802-811 | without a queue, a result that converts to its class and not to builtins gets no reply and no record, after its handler has run |
| `AuditLimits.UnconvertibleParamsAreLost` | python/truenas_pyjsonrpc/protocol.py:521-540 | the same for params that a validator replaced by something that does not convert |
| `AuditLimits.UnconvertibleTransferIsLost` | python/truenas_pyjsonrpc_server/connection.py:242-251 | the same for the final result of a transfer whose connection does its part |
| `AuditLimits.QueueLosesTheRest` | python/truenas_pyjsonrpc_server/server.py:333-337 | with a queue one such job costs every record behind it, which inline mode would keep |
| `WireOrder.StepKeeps` | python/truenas_pyjsonrpc_server/server.py:115-125 | every step of drains, registry, event loop, writers, transfers and closes keeps the order of every session's notifications |
| `WireOrder.WrittenIsPrefixOfPolled` | python/truenas_pyjsonrpc_server/server.py:319-330 | the notifications written on a connection are always a prefix of those polled for its session, and while it is open every polled one is written, held, queued, posted or in hand |
| `WireOrder.ClosedTakesNothing` | python/truenas_pyjsonrpc_server/connection.py:182-186 | a connection marked closed takes no further notification, even one whose connection was looked up before |
| `WireOrder.GateHoldsTheWriter` | python/truenas_pyjsonrpc_server/connection.py:188-197 | while a session's gate is closed for a raw transfer, no sequence of steps of anybody puts one of its notifications on the wire |
| `WireOrder.NoteCanArrive` | python/truenas_pyjsonrpc_server/server.py:319-330 | some run takes a notification of a bound session all the way to the wire, and a transfer's frame goes out behind a closed gate |
| `Connections.Connection.DrainOutbound` | python/truenas_pyjsonrpc_server/connection.py:188-197 | behind a closed gate the writer's loop writes nothing and takes at most one item in hand; nothing is lost, repeated or overtaken; and it stops only at the closed gate, the empty queue or the sentinel |
| `Connections.DrainIsTurns` | python/truenas_pyjsonrpc_server/connection.py:188-197 | in every state the loop is a sequence of the writer's own steps, each enabled when it is taken, until neither is enabled |
| `Connections.DrainWritesAll` | python/truenas_pyjsonrpc_server/connection.py:188-197 | behind an open gate the writer writes the held and then every queued item ahead of the sentinel, in order, and ends exactly at the sentinel |
| `Connections.Connection.Close` | python/truenas_pyjsonrpc_server/connection.py:257-267 | a close marks the connection, releases the gate, cancels a transfer's wait for its go, detaches every dispatch, unregisters, closes the bound session and drops its subscriptions, and queues the sentinel |
| `Delivery.RunKeeps` | python/truenas_pyjsonrpc_server/server.py:319-330 | in every joint run both machines run on their own, only bound sessions can be sent to, and what was polled for a session is what the protocol's polls returned for it |
| `Delivery.DrainIsNeverStuck` | python/truenas_pyjsonrpc_server/server.py:319-330 | in every reachable joint state a drain thread with nothing in hand can poll, so that the join excludes no behaviour |
| `DeliveryRuns.PublishedIsWritten` | python/truenas_pyjsonrpc_server/server.py:319-330 | some joint run of both machines writes what was published to the session that subscribed |
| `Clients.ResultIsOwn` | python/truenas_pyjsonrpc_client/client.py:609-623 | over every interleaving of calls, responses, timeouts and connection loss a call that returned did so with the result of a response under its own id that brought no error, and one that raised did so with the error of such a response |
| `Clients.EntriesFollowCalls` | python/truenas_pyjsonrpc_client/client.py:482-499 | a finished call leaves no pending and no progress entry; an unfinished call with an open future is settled by the next response with its id or the loss of the connection |
| `Clients.FirstEventEndsTheCall` | python/truenas_pyjsonrpc_client/client.py:482-499 | a waiting call ends with what comes first: it returns a response's result, raises its error, breaks with the connection, which empties the registry, or is aborted by its timeout |
| `Clients.CallsCanReturn` | python/truenas_pyjsonrpc_client/client.py:482-499 | in every reachable state whose read loop runs, a new call can be sent, answered and returned |
| `Clients.FailedSend` | python/truenas_pyjsonrpc_client/client.py:482-499 | a call that could not be sent breaks and leaves no entry |
| `Clients.SettlesIffConnected` | python/truenas_pyjsonrpc_client/client.py:603-607 | a call that waits can be answered or failed in some continuation if and only if the read loop still runs |
| `Clients.SettledForGood` | python/truenas_pyjsonrpc_client/client.py:204-218 | a future is settled at most once, and a finished call stays as it ended |
| `Clients.ProgressIsOwn` | python/truenas_pyjsonrpc_client/client.py:637-641 | a progress callback is run only for a call that was made with it and had not finished when the progress came, with what that message brought |
| `Clients.ProgressArrives` | python/truenas_pyjsonrpc_client/client.py:637-641 | progress of an unfinished call reaches the callback that it was made with, exactly once |
| `BaseClients.BaseClient.Receive` | python/truenas_pyjsonrpc_client/client.py:609-652 | a message with a pending id settles that future unless it is settled; any other goes to the transfer that waits for its ready, to its call's progress callback, to the topic's callbacks in order, to the handler or to the queue, in that order of preference |
| `BaseClients.EveryNoticeHasOnePlace` | python/truenas_pyjsonrpc_client/client.py:625-652 | a message that answers no call goes to its call's own callback, or to all callbacks of its topic in order, or to the handler, or to the queue, and to one of these only |
| `BaseClients.BaseClient.Disconnect` | python/truenas_pyjsonrpc_client/client.py:666-670 | the loop fails exactly the open pending futures and empties the registry |
| `ClientSubs.IndexIsExact` | python/truenas_pyjsonrpc_client/client.py:501-527 | for every topic the multiset of registered callbacks is that of the subscribes still waiting and of the subscriptions held, and no empty list is kept |
| `ClientSubs.AckKeepsIffFresh` | python/truenas_pyjsonrpc_client/client.py:507-515 | an answer keeps the index exact if and only if it is a string that no held subscription has |
| `ClientSubs.SubscribeThenForget` | python/truenas_pyjsonrpc_client/client.py:501-527 | in every reachable state a subscribe that is answered is held under its id, and unsubscribing it restores the index |
| `ClientSubs.FailedSubscribe` | python/truenas_pyjsonrpc_client/client.py:507-515 | a subscribe that fails leaves the index as it was |
| `BaseClients.BaseClient.DropCallback` | python/truenas_pyjsonrpc_client/client.py:517-522 | one registration of the callback goes, and the topic with its last one |
| `BaseClients.BaseClient.RemoveSub` | python/truenas_pyjsonrpc_client/client.py:524-527 | an unsubscribe drops its own callback once, and a repeated one changes nothing |
| `Guarantees.WrittenInEnqueueOrder` | python/truenas_pyjsonrpc_server/connection.py:182-197 | in every interleaving of locked blocks, drain threads and connections, a session's messages are written in the order they were enqueued, each at most once, and while the connection is open the rest are queued or under way |
| `Guarantees.OnlyTheAuthenticatedAreServed` | python/truenas_pyjsonrpc/protocol.py:769-775 | over every dialogue on a session set up by the stack, a method that is not `pre_auth` runs only for an identity that a verifier accepted in the session's last attempt, with its second factor if one was demanded |

## Left out

- SCRAM, PAM and GSSAPI cryptography, TLS and kTLS, WebSocket framing, peer credentials: verifiers are arbitrary answers, streams are bytes, a peer is a record.
- JSON text and msgspec decoding, encoding and conversion: their outcomes are inputs. `convert` of the stack's own `AuthResult` is taken to succeed.
- UUID generation: request and subscription ids are assumed fresh, as the client's and the server's are.
- Dict keys that are not strings, and dataclass, TypedDict and NamedTuple nodes, which `_compile` gives no plan.
- RedactionLimits.RedactionSettles: a class tagged with the mask itself is excluded; `RedactionMeaning.RedactIsIdempotent` covers it where the plan reaches every secret.
- Redactors.Redactor.Overlay: works on values, so that aliasing inside the builtins copy is not modelled; the struct branch updates a local copy key by key.
- Movers.RecvFile: a write that raises, or a file object on a non-blocking descriptor, is not modelled.
- Handshake.Step: the two-party handshake is a state machine on values, not on `Connection` and `BaseClient` objects; the client sends no other frame between a transfer request and its end, and none after it has abandoned one.
- HandshakeProofs.StepKeeps: a callback that ends early, a client that closes the connection when its callback raises, and a broken socket are no actions of the machine; `HandshakeFaults` says exactly when the first breaks what the machine keeps.
- Clients.Step: raw-fd transfers' own futures are not part of the correlation model.
- Sessions.Happen: the unsubscribe-all of a close is one step, as it is under the condition variable; the setup handlers never return CLOSED.
- Dispatch.Protocol.DispatchOne: error messages and data, roles, the validity of a callback's arguments, and `server_state_external` are not modelled; a message is handled in one step, and its effects on the back channel are modelled in `BackChannel`.
- Audit.RecordOf: a job's params and result are values; objects that a handler changes after it was queued are not modelled.
- Auth.PeerOrigin: the origin is kept as a record and not written as text.
- WireOrder.Step: a loop that closes under the drain thread ends the run; the order of replies among notifications is not stated.
- Query filters, `describe`, code and OpenRPC generation, syslog formatting, decorators, configuration classes and examples: string building or easy members.
- Liveness, such as that every call eventually returns.
