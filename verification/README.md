# Verified models of the SSH gateway and the generated Go client

This project models three parts of the Daytona repository and proves what they are for.

1. **The SSH session proxy** (`apps/ssh-gateway/main.go`). A client connection is admitted, and every channel on it
   becomes a session: a main goroutine that copies the runner's output to the client, a pump for the other direction,
   two request forwarders, a watcher for the death of the client's connection, and a keepalive. All sessions of a
   connection share one broadcast, `connClosed`. `Session.dfy` is the step relation of one session, `Connection.dfy`
   that of a connection with any number of sessions; the goroutines, the peers and the clock interleave freely.
   The theorems speak about every state of every run. `LiveSession.dfy` and `LiveConnection.dfy` are the same code as
   objects updated in place: each method is a step of the machine, touches only the variables of its goroutine, and the
   objects go through every run of the machine. `Progress.dfy` says what a live session gets done by itself, and
   `KeepaliveTiming.dfy` gives its keepalive real times. `Stranding.dfy` asks what becomes of a session whose client closes only
   its channel.
2. **Placeholder substitution in the generated client** (`configuration.go`, `api_sandbox.go`). Server URLs and
   operation paths are made by replacing one placeholder after the other in a string. `Templates.dfy` relates this to
   tokens, `SubstitutionOrder.dfy`, `OrderMatters.dfy` and `BracedNames.dfy` say exactly when the order is irrelevant,
   `ServerUrl.dfy`, `ApiPath.dfy`, `Endpoints.dfy` and `Operations.dfy` apply it.
3. **Encoding and decoding of `AccountProvider`** (`model_account_provider.go`), on JSON objects after parsing.

`dafny verify dfyconfig.toml` checks everything.

## Assumptions about the environment

The gateway's library and peers are not part of the code, so the model states what it takes from them.

- *Peers.* What a peer will ever write or request on a channel is finite; it is a constant of the session, so that a
  theorem about all sessions covers every such output. How much has arrived, and in what pieces, is up to the peer.
- *Channels.* A blocked read ends at the peer's EOF or CLOSE or when the transport dies, and data that has arrived
  can still be read. A write may stay blocked for ever while the channel is open, may be cut into pieces of any size,
  and fails once the channel is closed by either side. A call that waits for a reply fails once the far side has
  closed. A channel on which nothing can be sent any more drops replies silently.
- *Answers.* Once the gateway has closed a channel or its connection to the runner, the peer's CLOSE arrives or the
  transport dies (section 5.3 of RFC 4254). Calls that accept, dial, open or use the API return. Only `Liveness` uses
  these two, in the predicate `Inevitable`, and what is built on it; everything in `Safety` holds without them.
- *Death of the client.* The library shuts down all channels of the connection before `Wait` returns, so the loss of
  the client is one event. Refusing a connection has the same effect.
- *Starting goroutines.* The `go` statements between the opening of the runner's channel and the copy are one event.
- *Strings and JSON.* In URLs and paths a character stands for one byte of a Go string. In `AccountProviders` it stands
  for one code point, and all strings are valid UTF-8: the encoder replaces anything else, so a value with an invalid
  string is never read back. JSON numbers are opaque. A nil map and an empty map are the same value.

## Findings

- **An exit status can be lost.** The main goroutine does not wait for the forwarder of the runner's requests, so a
  session can end and close the client's channel with the runner's `exit-status` received and unsent, although the
  client stayed connected and no copy failed (`Scenarios.ExitStatusCanBeLost`). A request reaches the client if and
  only if the client's channel is open when the forwarder takes it (`Safety.RequestReachesClientIff`).
- **A client can leave a session to the runner.** If it closes its channel and keeps its connection, `connClosed` does
  not fire. Then the session can return without any act of the runner if and only if its copy is not idle, that is, if
  output is still to be written or read or the runner's end has already arrived (`Stranding.ReturnsUnaidedIff`); an idle
  one goes on, with its keepalive (`Scenarios.ClientLeavesSessionIdle`).
- **The order of URL replacements can show in three cases and no others.** They are a template with nested braces such as
  `{x{b}}`, a value with a brace, and a harmful name: one that has a brace and whose own placeholder has no nested
  braces, such as `x}y`. (The name `{b}` is harmless: its placeholder never occurs.) In all other cases the replacements
  are one simultaneous substitution (`BracedNames.HarmlessIsSimultaneous`). None of the three can be dropped: every such
  template, value or name comes with an example, the rest being unobjectionable, in which two orders give two results
  (`OrderMatters.OrderIndependentIff`, `OrderMatters.SafeValueIff`, `BracedNames.SafeNameIff`).
- **Extra properties can break the round trip in more ways than by the names `name` and `displayName`.** The decoder
  matches struct fields up to letter case, including the untagged Go field `AdditionalProperties`: a provider with the
  extra property `additionalProperties` of a type other than object is encoded to a document that the decoder rejects
  (`AccountProviders.ExtraNamedLikeTheField`, `ProviderThatCannotBeRead`). A long s instead of the `s` in `displayName`
  overrides the real field (`DisplayNameCanBeHijacked`, `ProviderThatIsMisread`); the field `name` cannot be overridden
  so (`NameIsNeverHijacked`). `DecodeEncodeIff` gives the exact condition. In the other direction a null field decodes to
  an empty string, so that the object is not encoded back (`NullFieldIsLost`); `EncodeDecodeIff` gives the exact condition
  on the document.

## Model

| member | source | states |
|---|---|---|
| SessionInvariant.SessionStep | apps/ssh-gateway/main.go:261-399 | Every atomic action of every goroutine and of both peers keeps the session's invariant: life cycle and defer stack, who has closed what, both byte streams, both request queues, activity calls, and a keepalive that ends only after cancellation |
| SessionInvariant.MainKeeps | apps/ssh-gateway/main.go:264-290 | Every action of the main goroutine, each early return included, keeps the invariant |
| SessionInvariant.DeferredKeeps | apps/ssh-gateway/main.go:270-363 | Each deferred call, in last-in first-out order, keeps the invariant |
| SessionInvariant.ForwardKeeps | apps/ssh-gateway/main.go:293-330 | One turn of a request forwarder keeps: order without gaps, one verdict per consumed request that wants a reply, false on a failed send |
| History.StepExtends | apps/ssh-gateway/main.go:261-399 | No action undoes anything: bytes, requests and replies are only appended, closing is final |
| Runs.RunExtends | apps/ssh-gateway/main.go:256-258 | Over a whole run of the connection, what a session has done by one point is part of what it has done at any later point |
| Connection.StepInv | apps/ssh-gateway/main.go:164-258 | Every event of a connection keeps the connection's invariant and that of each of its sessions, for any number of sessions |
| Connection.RunInv | apps/ssh-gateway/main.go:164-258 | The invariant holds after every run |
| Connection.DisconnectInv | apps/ssh-gateway/main.go:246-253 | The death of the client's connection, at any moment, keeps the invariant |
| Connection.TakeChannelInv | apps/ssh-gateway/main.go:256-258 | Handing the next channel to a goroutine keeps the invariant |
| Safety.StreamIntegrity | apps/ssh-gateway/main.go:336-393 | In every reachable state the bytes written to each side are a prefix of those read from the other; EOF has gone to the runner only after every byte the client sent was written; the client never gets an EOF from the gateway |
| Safety.NothingAfterEof | apps/ssh-gateway/main.go:336-342 | After the half-close no byte follows to the runner |
| Safety.HalfClosePreservesOutput | apps/ssh-gateway/main.go:332-396 | While the client's connection is up, nothing of a copying session is closed by the gateway, whatever the client has ended; when the copy has returned everything the runner sent has been delivered, or a write failed, and then because the client closed its channel |
| Safety.ReturnHasCause | apps/ssh-gateway/main.go:393-399 | A session whose goroutines were started returns only by an end or a write failure of its own copy |
| Safety.DeathHasCause | apps/ssh-gateway/main.go:249-253 | `connClosed` has fired only if the client's connection died and the waiter saw it |
| Safety.RunnerClosedOnlyWithCause | apps/ssh-gateway/main.go:276-360 | The gateway closes a session's runner channel only after `connClosed` has fired or that session's own copy has ended, and the runner connection of a started session only in the second case |
| Safety.SessionsAreIndependent | apps/ssh-gateway/main.go:256-258 | Over any stretch of a run without events of its own and without the loss of the client, a session stays as it is, whatever the other sessions do |
| Safety.WantIndicesExact | apps/ssh-gateway/main.go:301-308 | The requests due a reply, in ascending order and without omission, are exactly those that want one |
| Safety.RequestsForwardedInOrder | apps/ssh-gateway/main.go:293-330 | In each direction: requests sent on are a gapless prefix of those received; each completed request that wants a reply got exactly one, in request order, equal to the far side's answer and else false; others got none |
| Safety.RequestReachesClientIff | apps/ssh-gateway/main.go:313-330 | A runner request reaches the client if and only if the client's channel is open when the forwarder takes it |
| Safety.ExitStatusDeliveredBeforeTeardown | apps/ssh-gateway/main.go:313-335 | An `exit-status` handled while the copy runs and the client has not closed its channel is delivered, that very request in its place, in every continuation |
| Safety.NothingClosedTwice | apps/ssh-gateway/main.go:249-353 | `connClosed` is closed at most once; each `sessionDone` at most once, and exactly once when a started session has ended |
| Safety.EndedSessionHoldsNothing | apps/ssh-gateway/main.go:264-290 | Whichever way a session ends, it has closed exactly the client channel, runner connection and runner channel it had acquired, and cancelled its keepalive |
| Safety.NoGoroutineBuildUp | apps/ssh-gateway/main.go:352-391 | Live watchers, and live keepalives, never outnumber the started sessions that have not ended plus those that are torn down and have an event with which to end |
| AdmissionControl.EvidenceAt | apps/ssh-gateway/main.go:164-230 | The admission state of every reachable connection is backed by the answers that the run contains, in the right order |
| AdmissionControl.OnlyAdmittedSessionsRun | apps/ssh-gateway/main.go:164-258 | A session leaves the queue only on a connection with a token, a valid answer, a runner domain and, for a named sandbox, a STARTED answer for that same sandbox |
| AdmissionControl.DialsOnlyWhatWasAdmitted | apps/ssh-gateway/main.go:164-276 | Every dial goes to exactly the sandbox id and domain that were admitted |
| AdmissionControl.RefusalIsFinal | apps/ssh-gateway/main.go:166-225 | After a refusal the client is cut off and no channel is ever served |
| Liveness.CostDrops | apps/ssh-gateway/main.go:261-399 | Every event of a session but a clock tick decreases its weighted count of undelivered bytes, pending requests and live goroutines |
| Liveness.MeasureDrops | apps/ssh-gateway/main.go:246-258 | The same for a connection, unless a connected client opens a channel |
| Liveness.RunsAreBounded | apps/ssh-gateway/main.go:344-360 | Once the client is gone every run has at most as many events as the measure says, plus three per clock tick |
| Liveness.SessionNotStuck | apps/ssh-gateway/main.go:344-399 | A session that is being set up, is torn down, or whose `connClosed` has fired always has an inevitable event until all its goroutines have ended |
| Liveness.NeverStuck | apps/ssh-gateway/main.go:246-258 | Once the client is gone the connection always has an inevitable event until everything has ended |
| Liveness.TeardownNeverStuck | apps/ssh-gateway/main.go:352-399 | A session whose copy has ended winds up although its connection lives on |
| Liveness.QuietHoldsNothing | apps/ssh-gateway/main.go:264-363 | When all has ended, everything acquired is closed and every `sessionDone` was closed once |
| Liveness.WindUp | apps/ssh-gateway/main.go:246-399 | Against every scheduler, winding up ends within the bound, with every goroutine ended |
| Progress.ChannelsAreTaken | apps/ssh-gateway/main.go:256-258 | While the loop runs, every channel in the queue can be handed to a goroutine, by the loop alone |
| Progress.SessionIsSetUp | apps/ssh-gateway/main.go:264-393 | If its calls succeed, a session gets to its copy with all goroutines started, having dialled where the connection was admitted to |
| Progress.RequestsGoThrough | apps/ssh-gateway/main.go:293-330 | At any time a run of one forwarder and of the answers to it consumes every arrived request up to the first nil and completes it; all are sent on if the far channel is open; the forwarder has ended if the near side has closed |
| Progress.ClientBytesGoThrough | apps/ssh-gateway/main.go:336-342 | At any time a run of the pump alone passes on all that has arrived from the client while the runner's channel is open, and the EOF exactly if the client's end has arrived |
| Progress.RunnerBytesGoThrough | apps/ssh-gateway/main.go:393 | At any time a run of the copy alone delivers all that has arrived from the runner while the client's channel is open |
| Progress.OutputThenEnd | apps/ssh-gateway/main.go:393-399 | When the runner's end has arrived, the main goroutine alone can deliver the rest and end the session |
| Progress.KeepaliveGoesOn | apps/ssh-gateway/main.go:374-390 | Until it is cancelled, one more `keepalive` call can always follow, by a tick and the return of the pending call alone |
| Progress.EverythingGoesThrough | apps/ssh-gateway/main.go:293-393 | From every state of a copying session with both channels open, a run of its own goroutines and of answers to requests ends with all arrived bytes and requests passed on in both directions |
| Progress.ChoicesAreOpen | apps/ssh-gateway/main.go:355-389 | `select` may take any case that is ready; a read or a write may take any piece |
| Scenarios.ReachesRunning | apps/ssh-gateway/main.go:164-393 | For every pair of peers a run exists that reaches a copying session |
| Scenarios.EverythingCanBeDelivered | apps/ssh-gateway/main.go:164-399 | For every pair of peers a run in which all bytes and requests are delivered, the exit status included, the EOF is passed on and the session ends |
| Scenarios.ExitStatusCanBeLost | apps/ssh-gateway/main.go:313-399 | A run in which the client stays, nothing fails, and the session ends with the exit status taken and not sent |
| Scenarios.ClientLeavesSessionIdle | apps/ssh-gateway/main.go:344-393 | For every pair of peers a run in which the client closes its channel, stays connected, and leaves an idle session with its keepalive |
| Stranding.IdleStays | apps/ssh-gateway/main.go:344-393 | Whatever the client and all goroutines do, an idle copy stays blocked until the runner acts or `connClosed` fires |
| Stranding.ClosedChannelEnds | apps/ssh-gateway/main.go:393-399 | Once the client has closed its channel, any other session has an inevitable event that makes it return or leads to a write that fails |
| Stranding.ReturnsUnaidedIff | apps/ssh-gateway/main.go:344-399 | While the client's connection lives, a copying session can return without an act of the runner if and only if its copy is not idle |
| KeepaliveTiming.ReceivedSoon | apps/ssh-gateway/main.go:375-380 | With a ticker that buffers one tick, the next tick is received at once or within 45 seconds of the last |
| KeepaliveTiming.NextCallContinues | apps/ssh-gateway/main.go:378-386 | A call made at a tick keeps the series: kinds, spacing, at most one call more than ticks, no success after cancellation |
| KeepaliveTiming.KeepAlive | apps/ssh-gateway/main.go:362-391 | One `connection` call, then only `keepalive` calls; with calls of at most d, starts at most max(45 s, d) apart and the first within d + 45 s; at most one call more than ticks; a call has the API's answer if that comes before the cancellation, and else fails then; the goroutine returns then. The calls are the attempts of a run of the session machine's keepalive |
| LiveSessions.UnwoundEnds | apps/ssh-gateway/main.go:270-363 | All deferred calls together end the session, close all it had, and touch nothing else |
| LiveSessions.LiveSession.Unwind | apps/ssh-gateway/main.go:393-399 | Returning from `handleChannel` runs the whole defer stack |
| LiveSessions.LiveSession.Turn | apps/ssh-gateway/main.go:261-399 | The object updated in place follows the step relation, keeps the invariant and undoes nothing; what it has sent to each side is a prefix of what it has read from the other; no byte follows the EOF |
| LiveConnections.LiveConnection.Admit | apps/ssh-gateway/main.go:164-258 | The straight-line checks with early returns are a run of the machine and serve the connection exactly if all of them pass |
| LiveConnections.LiveConnection.ShutDown | apps/ssh-gateway/main.go:250-253 | The loop over all session objects shuts down every channel of the connection |
| LiveConnections.LiveConnection.Turn | apps/ssh-gateway/main.go:164-399 | The connection object with its session objects follows the step relation and keeps the invariant; no session is lost and nothing any session has done is undone |
| LiveConnections.LiveConnection.Run | apps/ssh-gateway/main.go:164-399 | The objects go through every run of the state machine, so that the theorems about runs hold of them |
| Templates.FlattenScan | libs/api-client-go/configuration.go:120-136 | Scanning a template into literal text and placeholders loses nothing |
| Templates.ScanNoAccident | libs/api-client-go/configuration.go:132-134 | In a scanned text no literal characters happen to spell a brace-free placeholder |
| Templates.ReplaceIsPut | libs/api-client-go/configuration.go:132-134 | Leftmost non-overlapping replacement of a placeholder is replacement of its tokens |
| SubstitutionOrder.FoldPutIsSubst | libs/api-client-go/configuration.go:120-136 | At the level of tokens any order is simultaneous substitution |
| SubstitutionOrder.FoldIsSimultaneous | libs/api-client-go/configuration.go:120-136 | At the level of strings too, for brace-free names and values and no nested braces |
| OrderMatters.FormedNameMatters | libs/api-client-go/configuration.go:120-136 | A placeholder formed by the other replacements makes the order show |
| OrderMatters.NestedBracesMatter | libs/api-client-go/configuration.go:120-136 | Every template with nested braces has brace-free variables and two orders with different results |
| OrderMatters.OrderIndependentIff | libs/api-client-go/configuration.go:120-136 | For brace-free variables the order is irrelevant exactly for templates without nested braces |
| OrderMatters.SafeValueIff | libs/api-client-go/configuration.go:132-134 | A value is harmless in all such templates exactly if it has no braces |
| BracedNames.ScanFlatten | libs/api-client-go/configuration.go:120-136 | A token list without nested braces is the only reading of its text |
| BracedNames.HarmlessIsSimultaneous | libs/api-client-go/configuration.go:120-136 | For brace-free values, harmless names and no nested braces, any order is simultaneous substitution |
| BracedNames.HarmlessLeavesNone | libs/api-client-go/configuration.go:120-137 | Then no placeholder of a declared variable is left |
| BracedNames.SafeNameIff | libs/api-client-go/configuration.go:132-134 | A name is harmless in all templates without nested braces exactly if it has no braces or its placeholder has nested braces |
| BracedNames.SplitNameIsHarmful | libs/api-client-go/configuration.go:132-134 | Names with a closing brace inside, such as `x}y`, are harmful |
| BracedNames.PlaceholderNameIsHarmless | libs/api-client-go/configuration.go:132-134 | Names that are placeholders themselves, such as `{b}`, are harmless although they have braces |
| ServerUrl.URL | libs/api-client-go/configuration.go:113-138 | Out of range, or a supplied declared variable outside its non-empty enumeration, exactly when an error is returned, and which; else the replacements in some order; under the side conditions every placeholder of a declared variable gives way to the caller's value, without one to the default, and nothing is left |
| ServerUrl.EveryPlaceholderFilled | libs/api-client-go/configuration.go:121-136 | Wherever a declared variable stands, there the URL has the caller's value, without one the default |
| ServerUrl.OneVariable | libs/api-client-go/configuration.go:113-138 | Spelled out for a URL with one variable, whatever its value: the text with the allowed value, the text with the default, or the error |
| ServerUrl.FoldedIsSimultaneous | libs/api-client-go/configuration.go:120-137 | Any traversal of the variables gives the promised URL under the side conditions |
| ServerUrl.UrlIndependentOfOrder | libs/api-client-go/configuration.go:121-136 | Two traversals give the same URL under the side conditions |
| ServerUrl.NestedUrlIsAmbiguous | libs/api-client-go/configuration.go:121-136 | Every URL with nested braces has variables for which two results are possible |
| ServerUrl.LookupsRefine | libs/api-client-go/configuration.go:145-195 | The lookups find the operation's own value, else the global one, else 0 or nothing, and fail exactly when a value they consult has the wrong type |
| ServerUrl.LookupsFind | libs/api-client-go/configuration.go:145-206 | If nothing consulted is mistyped, some servers, index and variables fit the declarative reading |
| ServerUrl.LookupsUnique | libs/api-client-go/configuration.go:145-206 | No more than one choice of servers, index and variables does |
| ServerUrl.ReadingSpelledOut | libs/api-client-go/configuration.go:145-206 | The choice spelled out for each kind of context, and what counts as mistyped |
| ServerUrl.ServerURLWithContext | libs/api-client-go/configuration.go:198-219 | A type error exactly for a mistyped consulted value; else `URL`'s outcome, error or text, for the servers, index and variables that the declarative reading names |
| PathEscape.UnescapeEscape | libs/api-client-go/api_sandbox.go:1425-1427 | Unescaping undoes escaping on every byte string |
| PathEscape.EscapedByte | libs/api-client-go/api_sandbox.go:1425-1427 | Letters, digits and `-._~$&+=:@` are written as themselves, every other byte as a percent sign and its two upper-case hexadecimal digits |
| PathEscape.EscapeConcat | libs/api-client-go/api_sandbox.go:1425-1427 | Bytes are escaped one by one |
| PathEscape.EscapeIsSegment | libs/api-client-go/api_sandbox.go:1425-1427 | An escaped value fits the grammar of a path segment (section 3.3 of RFC 3986) |
| PathEscape.Delimiters | libs/api-client-go/api_sandbox.go:1425-1427 | Space, `?`, `#`, `/`, `;`, `,` and `%` spelled out |
| PathEscape.EscapeInjective | libs/api-client-go/api_sandbox.go:1425-1427 | Different values have different escaped forms |
| PathEscape.EscapeLength | libs/api-client-go/api_sandbox.go:1425-1427 | At most three times the length, exactly when nothing is kept; unchanged exactly when all is |
| PathEscape.EscapedIsSegment | libs/api-client-go/api_sandbox.go:1425-1427 | An escaped value has only characters of a path segment, so no slash and no brace |
| ApiPath.SequentialIsSimultaneous | libs/api-client-go/api_sandbox.go:1424-1427 | For all parameter values, every order of the replacements and every base URL without nested braces: the base with its own placeholders filled, then every parameter escaped in its segment |
| ApiPath.BaseUnchangedIff | libs/api-client-go/api_sandbox.go:1424-1427 | The base URL survives all values exactly if it mentions none of the parameters |
| ApiPath.BraceFreeBaseIsPrefix | libs/api-client-go/api_sandbox.go:1424-1427 | A brace-free base URL is left unchanged |
| ApiPath.PathIsInvertible | libs/api-client-go/api_sandbox.go:3136-3138 | Splitting at slashes and unescaping recovers every parameter |
| ApiPath.SamePathIff | libs/api-client-go/api_sandbox.go:3136-3138 | Two paths on one base are equal exactly if all parameters of the template are |
| Endpoints.ExpireText | libs/api-client-go/api_sandbox.go:1424 | The template of the expire operation, letter by letter |
| Endpoints.ExpireSignedPortPreviewUrlPath | libs/api-client-go/api_sandbox.go:1424-1427 | The successive replacements in the literal template give the intended path, spelled out for a brace-free base |
| Endpoints.TraceSpansText | libs/api-client-go/api_sandbox.go:3136 | The template of the trace-spans operation, letter by letter |
| Endpoints.SandboxTraceSpansPath | libs/api-client-go/api_sandbox.go:3136-3138 | The successive replacements in the literal template give the intended path, spelled out for a brace-free base |
| Endpoints.PreviewText | libs/api-client-go/api_sandbox.go:1990 | The template of the preview operation, letter by letter |
| Endpoints.PortPreviewUrlPath | libs/api-client-go/api_sandbox.go:1990-1992 | The successive replacements in the literal template give the intended path, spelled out for a brace-free base |
| Operations.UrlBraceFreeIff | libs/api-client-go/configuration.go:113-138 | A server URL comes out brace-free exactly if all its placeholders are declared and it has no other braces |
| Operations.ExpireRequestPath | libs/api-client-go/api_sandbox.go:1419-1427 | From configuration and context to the path: an error exactly when the server lookup has one; for a fully declared URL and brace-free variables the server's URL, unchanged, followed by the rendered template |
| AccountProviders.AccountProvider.ToMap | libs/api-client-go/model_account_provider.go:106-116 | The keys are `name`, `displayName` and those of the extra properties; an extra property of the same name wins over a field |
| AccountProviders.AccountProvider.UnmarshalJSON | libs/api-client-go/model_account_provider.go:118-160 | The decoded value, or the first of the errors in the order of the checks, and then an unchanged receiver; with both required members, success exactly if no member is of a wrong type for the field it matches |
| AccountProviders.DecodeStruct | libs/api-client-go/model_account_provider.go:141-147 | A type error exactly if a member that matches a string field up to letter case is a boolean, number, array or object, or one that matches the map field is neither object nor null; else the last string that matches each field |
| AccountProviders.DecodeMeaning | libs/api-client-go/model_account_provider.go:118-160 | Decoding spelled out on the document: which error, and else the last string for each field and the last value of every other key |
| AccountProviders.MatchesSpelledOut | libs/api-client-go/model_account_provider.go:22-26 | The spellings that are taken for `name` and `displayName` |
| AccountProviders.ListingExists | libs/api-client-go/model_account_provider.go:98-104 | Every object can be written with ascending keys |
| AccountProviders.DecodeEncodeIff | libs/api-client-go/model_account_provider.go:98-160 | Decoding what was encoded gives the value back exactly for faithful values |
| AccountProviders.DecodeEncodeWithoutVariants | libs/api-client-go/model_account_provider.go:98-160 | If no extra property resembles a field, exactly when none is called `name` or `displayName` |
| AccountProviders.ExtraNamedLikeTheField | libs/api-client-go/model_account_provider.go:141-147 | An extra property that matches the struct's map field and is no object makes the decoder fail |
| AccountProviders.JsonStyleNameMatches | libs/api-client-go/model_account_provider.go:22-26 | `additionalProperties` is such a name |
| AccountProviders.ProviderThatCannotBeRead | libs/api-client-go/model_account_provider.go:98-147 | A provider without clashing names whose encoding the decoder rejects |
| AccountProviders.NameIsNeverHijacked | libs/api-client-go/model_account_provider.go:141-147 | No extra property can take the place of `name` |
| AccountProviders.DisplayNameCanBeHijacked | libs/api-client-go/model_account_provider.go:141-147 | One can take the place of `displayName` |
| AccountProviders.ProviderThatIsMisread | libs/api-client-go/model_account_provider.go:98-160 | A provider without clashing names that is read back as a different one |
| AccountProviders.EncodeDecodeIff | libs/api-client-go/model_account_provider.go:98-160 | Encoding what was decoded gives the object back exactly if, for each field, the document's own member is a string and the last string in the document that is taken for the field is the same |
| AccountProviders.NullFieldIsLost | libs/api-client-go/model_account_provider.go:118-160 | The document with a null name decodes, and is encoded as something else |
| AccountProviders.EncodeDecodeWithoutVariants | libs/api-client-go/model_account_provider.go:98-160 | Without repeated keys and variants of field names, exactly if both are strings |

## Left out

- The SSH handshake, keys, listening, reading the environment and logging (`apps/ssh-gateway/main.go:36-151`, `449-499`): I/O and library calls.
- Trimming host and port before dialling (`apps/ssh-gateway/main.go:401-436`): a dial is one event with the sandbox id and the domain.
- The goroutine for global requests (`apps/ssh-gateway/main.go:232-244`), which answers every one with false and shares nothing with the sessions.
- Any order between data and requests, and standard error: the code promises no order and does not copy extended data.
- Window sizes and the bounded queues of the library: a write takes any part of its buffer that the window may allow, a queue of requests is unbounded.
- Clock times inside the connection's step relation: `Session` has ticks at arbitrary moments, `KeepaliveTiming` has the times of one goroutine.
- Fairness: progress is stated as the absence of stuck states together with a measure, and against every scheduler by `Liveness.WindUp`, which bounds the number of clock ticks.
- All HTTP work of the `Execute` functions; `parameterValueToString` is an opaque rendering, so the path methods take strings.
- The other `api_*.go` files: the same generated shape.
- The `Nullable` wrappers, the getters and setters and the enumeration in `model_gpu_type.go`: flag and field access.
- JSON as bytes: documents are modelled after parsing, as members in document order; map keys are written in ascending order of their characters.
