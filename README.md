# freelan core: admission policy, fan-in table and contact loops

This project models the decision and state core of freelan's `core`
class (`src/core2.cpp`), the control plane of a peer-to-peer encrypted
virtual network node that drives the fscp secure channel server:

- `Gatherer` — `results_gatherer`, the fan-in table of a broadcast
  operation: a set of keys still expected and a map of reported values,
  updated in place by `gather`, whose completion handler fires once the
  last expected key has reported. A pure table model (`Step`, `Replay`)
  specifies the class and carries the exactly-once lemmas.
- `Admission` — the callbacks the core registers with the fscp server
  (hello, contact request, contact, presentation, session request,
  session, greet completion, data). Each is a function of the
  configuration, the never-contact list and certificate validity that
  returns the verdict handed back to the transport and the outbound
  requests (`Introduce`, `Contact`, `RequestSession`, `Drop`) it issues.
- `Validation` — `certificate_is_valid` and the trust store that
  `open_server` builds, with the OpenSSL revocation flags
  (`X509_V_FLAG_CRL_CHECK` = 0x4, `X509_V_FLAG_CRL_CHECK_ALL` = 0x8)
  selected by the revocation method.
- `Lifecycle` — the core's open/close lifecycle and its two periodic
  contact loops (static contacts every 30 s, dynamic contacts every
  45 s), as a class holding both timers, the server state and a trace of
  the work started.
- `Types` — endpoints, certificates, fingerprints, error codes and the
  outbound actions.

The model follows the code, including these behaviours of it:

- A contact request is accepted whenever contact requests are enabled; the
  code does not check the requester against the never-contact list
  (`src/core2.cpp:468-480`).
- A periodic loop re-arms with `expires_from_now`, so its next deadline is
  the completion time plus the period, not the previous deadline plus the
  period (`src/core2.cpp:401`, `src/core2.cpp:412`); `RearmDrifts` states
  the resulting drift.
- The first periodic run comes one period after the core is constructed;
  `open_server` itself contacts the static contacts once.
- Session establishment and loss register and unregister no forwarding
  port: those branches are commented out in the code.
- The static-contact path has no never-contact check: were the resolver
  to report a resolved address as a success, the contact would be greeted
  and, once it answered, introduced to, whatever the never-contact list
  says (`src/core2.cpp:314-320`, `src/core2.cpp:376-381`); only the
  contact announcements received from peers are filtered
  (`Admission.HandleContactReceived`). As written the resolver path does
  not get that far (see Left out).
- `close_server` cancels both timers, but a timer whose deadline has
  already passed can have its normal completion queued already, and then
  cannot be cancelled; its loop then runs once more after the server is
  closed and re-arms itself (see Findings).

## Model

| member | source | states |
|---|---|---|
| Gatherer.Step | src/core2.cpp:109-124 | a gather of a pending key removes exactly that key from the pending set, records its value, keeps every other result entry, and produces a handler call, with the whole result map, exactly when the pending set becomes empty |
| Gatherer.Replay | src/core2.cpp:109-124 | a sequence of gathers yields one handler-call slot per gather |
| Gatherer.FitsIff | src/core2.cpp:113-116 | a sequence of gathers keeps every key pending when it reports exactly when all its keys are expected and no key reports twice |
| Gatherer.ReplayRecords | src/core2.cpp:109-124 | gathering keeps pending and reported keys disjoint and together equal to the expected set, removes exactly the reported keys from the pending set, records each reported value and leaves earlier entries unchanged |
| Gatherer.FiresOnceOnLast | src/core2.cpp:104-124 | when every pending key reports exactly once, the handler fires on the last gather and on no other, with a map whose domain is every expected key, and no key is left pending for a further gather |
| Gatherer.SilentWhileIncomplete | src/core2.cpp:120-123 | while some expected key has not reported the handler never fires |
| Gatherer.ResultsGatherer.constructor | src/core2.cpp:104-107 | a new gatherer expects exactly the given keys, has no results and has not fired |
| Gatherer.ResultsGatherer.Gather | src/core2.cpp:109-124 | gather requires a pending key, updates the table as `Step` does, and counts a handler call only when it empties the pending set; the fired count never exceeds one |
| Gatherer.GatherEach | src/core2.cpp:109-124 | gathers made one after another on one gatherer leave it in the state, and make the handler calls, that `Replay` gives |
| Validation.RevocationFlags | src/core2.cpp:246-262 | leaf-only sets the CRL check flag, full-chain sets it and the all-chain flag, none sets no flag, and no other flag is ever set |
| Validation.LeafFlagsWithinChainFlags | src/core2.cpp:246-262 | the leaf-only flag set is a strict subset of the full-chain flag set, and the empty set is within the leaf-only one |
| Validation.BuildStore | src/core2.cpp:232-263 | a trust store exists only in chain-validation mode, holds every configured CA and revocation list, and carries the revocation flags of the configured method and no other flag |
| Validation.CertificateIsValid | src/core2.cpp:707-745 | in chain mode a failed chain verification rejects whatever the external validator says; without a validator the verdict is "no validation or the chain verified"; with one, past the chain check, the validator's verdict is final |
| Admission.HandleHello | src/core2.cpp:449-466 | a banned sender is refused; otherwise the transport's default verdict is returned unchanged; an introduction to the sender is issued exactly when the hello is accepted |
| Admission.HandleContactRequest | src/core2.cpp:468-480 | a contact request is accepted exactly when contact requests are enabled, and nothing is issued |
| Admission.HandleContactReceived | src/core2.cpp:482-498 | nothing is issued when contacts are not accepted or the announced address is banned; otherwise exactly one contact toward the announced address |
| Admission.HandlePresentation | src/core2.cpp:500-523 | a banned sender is refused; otherwise the presentation is accepted exactly when both certificates are valid; a session is requested from the sender exactly when it is accepted |
| Admission.HandleSessionRequest | src/core2.cpp:525-542 | the transport's default verdict is returned unchanged and nothing is issued |
| Admission.HandleSession | src/core2.cpp:544-550 | the transport's default verdict is returned unchanged and nothing is issued |
| Admission.HandleGreetResult | src/core2.cpp:374-393 | a successful greet is followed by exactly one introduction to the greeted address; a timeout or other error issues nothing |
| Admission.HandleData | src/core2.cpp:642-679 | data on channels 0 and 1 is consumed without any request; data on any other channel is dropped |
| Admission.BannedNeverTargeted | src/core2.cpp:449-523 | no inbound event makes the core introduce itself to, contact or request a session from a banned address, and each event issues at most one request |
| Lifecycle.Cancel | src/core2.cpp:280-281 | cancelling keeps the deadline; a wait whose deadline is still ahead will complete as aborted, while a wait whose deadline has passed keeps its normal completion; a timer without a wait is unchanged |
| Lifecycle.OnTimer | src/core2.cpp:395-415 | a periodic handler runs its loop's work exactly when the completion is not operation_aborted, and then re-arms for now plus the period; an aborted completion leaves the timer without a wait |
| Lifecycle.OnTimerChecked | src/core2.cpp:395-415 | the corrected periodic handler: it runs its loop's work and re-arms exactly when the completion is not aborted and the core is still running; otherwise the timer is left without a wait |
| Lifecycle.PendingRunsEveryTime | src/core2.cpp:395-415 | as written, a timer with a normal wait outstanding runs its loop's work on every completion and is always left armed again |
| Lifecycle.ExpiredLoopNeverStops | src/core2.cpp:277-284 | as written, a loop whose deadline had passed when it was cancelled runs its work on every one of any number of later completions and stays armed |
| Lifecycle.UnexpiredLoopStops | src/core2.cpp:277-284 | a loop whose deadline was still ahead when it was cancelled never runs its work again and ends without a wait |
| Lifecycle.CheckedLoopStopsAtClose | src/core2.cpp:277-284 | with the corrected handler, no loop runs its work after close, whatever its deadline, and each ends without a wait |
| Lifecycle.RearmDrifts | src/core2.cpp:395-415 | re-arming from now puts the next deadline at least one period after the previous deadline, and exactly one period after it only when the handler ran on time |
| Lifecycle.Core.constructor | src/core2.cpp:145-154 | both timers are created with their first expiry one period ahead, without a wait, and no server exists yet |
| Lifecycle.Core.Open | src/core2.cpp:181-274 | opening fails exactly when there is no local identity or the listen endpoint cannot be opened; without an identity nothing changes; on a failed bind the server exists but nothing is contacted and no timer is armed; otherwise the server is open, the static contacts are contacted once and one wait is started on each timer |
| Lifecycle.Core.HandlePeriodicContact | src/core2.cpp:395-404 | an aborted completion neither contacts nor re-arms; any other runs contact_all once and re-arms the static timer for now plus the period; the dynamic timer and the server state are untouched, and the server state is not consulted |
| Lifecycle.Core.HandlePeriodicDynamicContact | src/core2.cpp:406-415 | the same for the dynamic contact loop and dynamic_contact_all |
| Lifecycle.Core.Close | src/core2.cpp:277-284 | the dynamic timer is cancelled, then the static timer, then the server is closed; each timer becomes what cancelling it at that time gives |
| Lifecycle.CloseThenDrain | src/core2.cpp:277-284 | after close, a loop whose deadline was still ahead starts nothing and is left without a wait; a loop whose deadline had passed runs its work once more, after the server is closed, and is armed again for the completion time plus its period |

## Findings

| source | as written | input that shows it | evidently intended | confidence | as-written member | corrected member |
|---|---|---|---|---|---|---|
| src/core2.cpp:277-284 | `close_server` stops the contact loops only by cancelling their timers; a timer whose deadline has passed can already have its normal completion queued, and then the handler runs `contact_all` after the server is closed and re-arms, and the loop goes on for ever | static timer due at 30 s, `close` at 31 s before the queued completion is dispatched | no contact loop runs once the server is closed ("Stop the contact loop timers") | medium, not executed | Lifecycle.ExpiredLoopNeverStops | Lifecycle.CheckedLoopStopsAtClose |

## Left out

- The asynchronous resolver and `resolve_handler` (`src/core2.cpp:72-82`,
  `src/core2.cpp:286-307`) are network I/O and are not modelled. Their
  branch is inverted (`if (ec)` calls the success handler). On a
  successful resolution the error handler is called with the zero code,
  which is `do_handle_contact` with a default-constructed endpoint
  (`src/core2.cpp:289`, `src/core2.cpp:311`): no greet is sent, and the
  zero code is taken as a successful greet, so an introduction goes to
  that default endpoint (`src/core2.cpp:376-380`). On a failed resolution
  the end iterator is dereferenced, which is undefined behaviour.
- `to_endpoint` (IPv4/IPv6 conversion) is taken as the identity on
  endpoints.
- The fscp server's own operations (`async_greet`, `async_introduce_to`,
  `async_request_session`, `async_send_contact_request_to_all`) belong to
  the transport; they appear only as emitted actions and trace effects.
  `contact_all` and `dynamic_contact_all` (resolving each contact,
  hashing each dynamic contact certificate) are recorded as single effects.
- OpenSSL chain verification, the per-certificate verification callback
  (which only logs and returns OpenSSL's verdict) and the external-data
  pointer stash are foreign code: chain verification is the predicate
  `chainVerifies` passed in by the caller.
- Network-range matching behind `is_banned` is abstracted as membership
  in a set of addresses.
- Session failed, established and lost only log; their forwarding-port
  registration and teardown are commented out, so there is no state to
  model. Likewise the channel 0 and channel 1 data handlers are empty.
- The completion handlers of outbound requests (`do_handle_introduce_to`,
  `do_handle_request_session`, `do_handle_send_contact_request_to_all`)
  only log.
- The mutex in `results_gatherer`: each gather is one atomic step.
- Gatherer.ResultsGatherer.Gather: the model takes the `assert` as a
  precondition; with assertions compiled out a repeated key would
  overwrite its value and could call the handler again, which is not
  modelled.
- Admission.HandlePresentation: the cipherment certificate is validated
  only when the signature certificate passed; since validation has no
  modelled side effect, only the verdict is stated.
- Lifecycle.Cancel: takes every wait whose deadline has passed as one
  whose normal completion is already queued, and so not withdrawn. asio
  queues it only once its reactor has collected the expired timer; a wait
  past its deadline but not yet collected is still aborted by `cancel`,
  which is then the case `Lifecycle.UnexpiredLoopStops` covers.
- Lifecycle.CloseThenDrain: when both loops had expired, the trace
  delivers the dynamic loop's completion first; asio delivers the two in
  the order it collected them, which this scenario does not model.
- Lifecycle.Core.Close: requires that the server was created, since the
  code calls `close` on it unconditionally; closing a core that was never
  opened dereferences a null server, which is not modelled.
- Logging, configuration loading, server mode and the tap adapter
  lifecycle in `open`/`close`.
