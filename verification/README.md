# Verification of the relay and its libraries

This project models the parts of gridas and of the libraries it ships with where state, order or arithmetic is
intricate, and proves what they promise. Line numbers are those of the repository's files.

- **Transactions over several documents** (`Tarjan.dfy`, `FlushOrder.dfy`, `Pulling.dfy`, `Flusher.dfy`,
  `Decisions.dfy`, `Dequeued.dfy`, `TokensKept.dfy`, `Runners.dfy`, `LostToken.dfy`). Tarjan's algorithm with its explicit stack, the order in which
  conflicting transactions are flushed, the tokens that are taken out of a queue, the protocol by which any number of
  runners, each of which may crash at any access to the database, move a transaction to its end through compare-and-set
  updates; over all runs, what assertions decide and what effects a transaction has; and what a runner takes in hand one
  after the other.
- **YAML parser, composer and decoder** (`YamlEvents.dfy`, `YamlParser.dfy`, `YamlComposer.dfy`, `YamlDecoder.dfy`,
  `YamlReferences.dfy`, `YamlMeaning.dfy`). The event grammar in two forms, by derivation trees and by an automaton, proved to be the same;
  the pushdown parser over tokens; the composer, which is proved to build the tree of the derivation; the decoder with
  aliases and merges, which is proved against the unfolding of a document; what aliases and merge keys stand for; and what
  handles, quotes and styles mean, from the tokens to the values.
- **The parser's grammar** (`YamlGrammar.dfy`, `YamlAccepted.dfy`, `YamlComment.dfy`). Token sequences by their
  derivations, proved to be exactly those that take the parser to its end, with the events of the documents derived, and
  compared with the grammar that the parser's comment gives.
- **YAML emitter** (`YamlLayout.dfy`, `YamlEmitter.dfy`, `YamlOutput.dfy`). The pushdown machine behind its look-ahead
  queue is proved to write what a printer that recurses over the tree writes, through the output buffer, with the line
  and the column of everything.
- **YAML round trip** (`YamlForms.dfy`, `YamlPlaced.dfy`, `YamlRoundTrip.dfy`). What the emitter lays out in lines and
  columns is scanned to the tokens of its derivation, simple keys and block collections found by the scanner's own rules,
  and parsed to the same documents.
- **YAML scanner** (`YamlScanner.dfy`, `DoubleQuoted.dfy`). Tokens inserted retroactively into a queue that is already
  consumed in part, and double-quoted scalars, which the writer and the scanner are proved to turn into each other.
- **BSON** (`Bson.dfy`). The appending encoder with back-patched lengths and the decoder with its cursor.
- **GridFS** (`GridFS.dfy`), **the queue of sockets' replies** (`RingQueue.dfy`), **the socket pool**
  (`SocketPool.dfy`, `SocketLimit.dfy`), **cluster discovery** (`Cluster.dfy`), and **the relay itself** (`Relay.dfy`).

What changes fields in place in Go is a class with those fields here. Goroutines and runners are state machines whose
steps are the critical sections or the single accesses to a store; the theorems about them are about all runs. Errors
and panics of the Go code are values, and where they cannot occur that is proved. What comes from outside (what the
network answers, whether an insertion succeeds, which scalars a resolver knows) is a parameter or is left open.

Where the code and what is said about it disagree, the code is modelled, and the theorems say what then holds:

- `rescan` panics over a document that misses a transaction in its queue, as something that cannot be. It can, with two
  transactions that wait for each other: `LostToken.TokenIsLost`. It does not as long as what is pulled is settled:
  `TokensKept.NoTokenLost`, `TokensKept.KeptExactly`.
- `tokensToPull` takes the token not to be pulled if a later one may be pulled: `Pulling.KeepsDontPull`.
- `prepare` and `rescan` count revisions differently for a document that is missing: `Flusher.RevnosAgree`.
- A GridFS seek to the end fails if the last chunk is full, unless that chunk is the present one:
  `GridFS.Download.Seek`, `GridFS.SeekToTheEnd`. A fetch that fails leaves the number of the chunk one too far on, so that
  reading goes on at the wrong place until a seek fetches a chunk again, and a seek within the chunk may panic:
  `GridFS.Download.Read`, `GridFS.ReadTheWrongByte`, `GridFS.SeekPanics`.
- The scanner's "should not happen" does happen, and it is no error but a panic that leaves `Unmarshal`: exactly where
  `YamlScanner.PanicsExactly` says.
- The parser's comment gives a grammar that the parser departs from in four places: a value of a block mapping needs a
  key, a pair of a flow sequence needs a key, properties alone have to say something, and in place of a key an indicator
  may be swallowed. `YamlComment.StreamIs` says that there is nothing else, and four lemmas behind it have the examples.
- The emitter never takes a document for empty, and prints nothing at all for an unmarked one whose root is an empty
  plain scalar: `YamlForms.StreamReread`, `YamlRoundTrip.EmptyDocumentIsLost`.
- The limit of a socket pool is checked before a socket is opened, and against a count that takes dead sockets in the pool
  for resting ones; it can be overtaken for either reason: `SocketLimit.OvertakenExactly`, `SocketLimit.WithinLimit`,
  `SocketLimit.DialedTogether`, `SocketLimit.StrayMiscounts`.
- A merge key overrides the explicit entries before it: exactly when is said by `YamlReferences.ExplicitKeptExactly`, and
  `YamlReferences.MergeBehind` is an example. An alias refers to the last node of the document with its anchor, also if it
  stands before that node: `YamlReferences.AliasesAsMeantExactly`, `YamlReferences.AliasAhead`,
  `YamlReferences.AnchorAgain`.
- A petition whose reply cannot be inserted is removed all the same, and lost exactly then: `Relay.AcceptedIsKept`,
  `Relay.LostWithoutReply`. A request is sent again after an error or a 503: `Relay.RelayedByOne`.
- The comment on a socket's server field says that it is nil while the socket is cached; the field is kept until the
  socket is killed, and the model does so too.

The main results are `Tarjan.TarjanSort`, `FlushOrder.Run` and `PlanIsStable`, `Flusher.NextKeeps` and the theorems about runs behind it,
those of `Decisions` among them, `TokensKept.KeptExactly` and `LostToken.TokenIsLost`; `YamlAccepted.Accepted` and
`ReadEvents`, `YamlComment.StreamIs`, `YamlMeaning.TreeMeans` and `UnmarshalScalar`, `YamlComposer.Compose`,
`YamlDecoder.Decode`, the equivalences of `YamlReferences`, `YamlEmitter.EmitStream`,
`YamlPlaced.StreamScanned`, `YamlRoundTrip.RoundTrip` and `LaidAlike`, `YamlScanner.Scan` and `PanicsExactly`,
`DoubleQuoted.Scanner.Scan` and `RoundTrip`; `Bson.RoundTrip`, `GridFS.StoreAndRead`, and the theorems about runs of `SocketPool`,
`SocketLimit`, `Relay` and `Cluster`. The rows of single methods of the classes `Parser`, `Scanner`, `Composer`, `Decoder`
and `Emitter` are helpers to these: each says that one production does the step of the function that specifies it.

## Model

| member | source | states |
|---|---|---|
| Tarjan.TarjanSort | Godeps/_workspace/src/labix.org/v2/mgo/txn/tarjan.go:8-29 | For every closed successor graph the lists partition the keys; two ids share a list exactly when each is reachable from the other; a list comes after every other list that it can reach; the lists are those of the function of the graph that `Tarjan.Stable` is about |
| Tarjan.Stable | Godeps/_workspace/src/labix.org/v2/mgo/txn/tarjan.go:16-29 | Sorting makes the result stable: it depends on the graph alone, not on the order in which a map is gone through or successors are listed |
| Tarjan.TarjanData.StrongConnect | Godeps/_workspace/src/labix.org/v2/mgo/txn/tarjan.go:51-96 | One visit keeps the invariant of index, lowlinks, stack and output, ends with everything reachable numbered or listed, and reports a lowlink that bounds what is left on the stack and is witnessed by a path |
| Tarjan.TarjanData.PopComponent | Godeps/_workspace/src/labix.org/v2/mgo/txn/tarjan.go:76-93 | At a root, what is above it on the stack is popped, reversed, and listed as one component; the invariant holds again |
| Tarjan.RootCloses | Godeps/_workspace/src/labix.org/v2/mgo/txn/tarjan.go:76-93 | At a root, what has been listed together with what is above the root on the stack is closed under successors |
| Tarjan.RootComponent | Godeps/_workspace/src/labix.org/v2/mgo/txn/tarjan.go:76-93 | At a root, the ids above it on the stack are exactly one strongly connected component |
| Tarjan.Returned | Godeps/_workspace/src/labix.org/v2/mgo/txn/tarjan.go:57-75 | A visit that ends with a lowlink below its own number leaves its id anchored: a path leads from it to an id still being visited further down the stack |
| Tarjan.Popped | Godeps/_workspace/src/labix.org/v2/mgo/txn/tarjan.go:76-93 | Popping a root's component keeps the whole invariant, so every listed component stays maximal and in order |
| Tarjan.GoodOutputIsTopological | Godeps/_workspace/src/labix.org/v2/mgo/txn/tarjan.go:8-29 | Components listed one by one, each closed over what is listed before it, are a reverse topological partition |
| FlushOrder.BuildSuccessors | Godeps/_workspace/src/labix.org/v2/mgo/txn/flusher.go:52-95 | The graph is closed; its keys are the transactions with a valid queue entry; its edges are exactly the pairs of valid entries that are next to each other in some queue; readiness is having no predecessor |
| FlushOrder.QueueOrderReaches | Godeps/_workspace/src/labix.org/v2/mgo/txn/flusher.go:52-95 | Of two valid entries of one queue the earlier transaction reaches the later one in the graph, whatever stale entries stand between |
| FlushOrder.PlanOrder | Godeps/_workspace/src/labix.org/v2/mgo/txn/flusher.go:97-127 | Walking the sorted components backwards flushes each key once, and every id of a later component before every id of an earlier one |
| FlushOrder.InQueueOrder | Godeps/_workspace/src/labix.org/v2/mgo/txn/flusher.go:97-127 | A transaction ahead of another in some queue is flushed before it, unless the queues lead back from the other one to it |
| FlushOrder.PullIsClosed | Godeps/_workspace/src/labix.org/v2/mgo/txn/flusher.go:97-127 | Whatever is ahead of a transaction that may be pulled may be pulled too |
| FlushOrder.PlanIsOrdered | Godeps/_workspace/src/labix.org/v2/mgo/txn/flusher.go:97-127 | The whole plan: every queued transaction once, in queue order up to cycles, and each pull set holds only transactions that are flushed before and everything ahead of them |
| FlushOrder.NothingBehind | Godeps/_workspace/src/labix.org/v2/mgo/txn/flusher.go:105-125 | What is behind a transaction in some queue is not in the pull set it is flushed with |
| FlushOrder.PrerequisiteIsPreceding | Godeps/_workspace/src/labix.org/v2/mgo/txn/flusher.go:86-91 | Some valid entry is ahead of the goal's in a queue if and only if an edge of the graph leads to the goal |
| FlushOrder.Run | Godeps/_workspace/src/labix.org/v2/mgo/txn/flusher.go:32-127 | Without prerequisites only the goal is flushed; otherwise the plan is in queue order in the sense above, for all queues and all transactions seen |
| FlushOrder.PlanIsStable | Godeps/_workspace/src/labix.org/v2/mgo/txn/flusher.go:52-127 | The plan is the same for the same queues, in whatever order they are gone through |
| FlushOrder.PullIsExact | Godeps/_workspace/src/labix.org/v2/mgo/txn/flusher.go:105-125 | The pull set of a flush is exactly the transactions of the components flushed before it, with its own transaction if that is a component by itself |
| Pulling.TokensToPull | Godeps/_workspace/src/labix.org/v2/mgo/txn/flusher.go:915-936 | The backward loop yields exactly the tokens of the recursive description |
| Pulling.PulledUpTo | Godeps/_workspace/src/labix.org/v2/mgo/txn/flusher.go:915-936 | With the last token that may be pulled at position k, the result is everything before k, k itself unless it is the one not to be pulled, and behind k exactly the stale tokens |
| Pulling.PulledStale | Godeps/_workspace/src/labix.org/v2/mgo/txn/flusher.go:915-936 | With no token that may be pulled, exactly the stale tokens are taken |
| Pulling.PulledGoes | Godeps/_workspace/src/labix.org/v2/mgo/txn/flusher.go:915-936 | Exactly these entries of a queue are taken out: stale ones, those before the last one that may be pulled, and that one unless it is to be kept |
| Pulling.PullsOnlyHandled | Godeps/_workspace/src/labix.org/v2/mgo/txn/flusher.go:915-936 | A valid token that a flush of the plan pulls is of the transaction being flushed or of one flushed before: no transaction still to come loses its place in a queue |
| Pulling.KeepsDontPull | Godeps/_workspace/src/labix.org/v2/mgo/txn/flusher.go:915-936 | The token not to be pulled stays if and only if no later token of the queue may be pulled |
| Pulling.DontPullIsPulled | Godeps/_workspace/src/labix.org/v2/mgo/txn/flusher.go:915-936 | A queue of two tokens that may both be pulled, whose first one is pulled against the wish to keep it |
| Pulling.OwnEntryStays | Godeps/_workspace/src/labix.org/v2/mgo/txn/flusher.go:730-739 | With a pull set of the plan, though, the token of the transaction that is being flushed is kept when it is not to be pulled |
| Flusher.NextKeeps | Godeps/_workspace/src/labix.org/v2/mgo/txn/flusher.go:156-913 | Every step of any runner (advance, prepare, rescan, reload, assert, abortOrReload, checkpoint, apply), every insertion, revisit and every crash keeps the invariant, and moves stored records only forward; what the assertions decide is said by the lemmas of `Decisions`, and what leaves the queues by those of `Dequeued` |
| Flusher.RunInv | Godeps/_workspace/src/labix.org/v2/mgo/txn/flusher.go:156-913 | The invariant holds at every point of every run, with any number of runners and crashes |
| Flusher.RecordsMoveOn | Godeps/_workspace/src/labix.org/v2/mgo/txn/flusher.go:323-342 | A stored transaction only moves preparing, prepared, then applying and applied or aborting and aborted; its nonce and its saved revision numbers never change once set |
| Flusher.NeverAppliedAndAborted | Godeps/_workspace/src/labix.org/v2/mgo/txn/flusher.go:595-679 | A transaction once applying or applied is at no point of the run aborting or aborted |
| Flusher.AtMostOnce | Godeps/_workspace/src/labix.org/v2/mgo/txn/flusher.go:681-763 | However many runners apply one transaction, each of its updates takes effect at most once, at the revision saved in the record |
| Decisions.RunDecided | Godeps/_workspace/src/labix.org/v2/mgo/txn/flusher.go:221-679 | Throughout every run each record that is applying or applied carries revision numbers that were read of its documents and on which all its assertions hold, and each that is aborting or aborted has an assertion that does not hold on the revisions read |
| Decisions.AppliedAsAsserted | Godeps/_workspace/src/labix.org/v2/mgo/txn/flusher.go:541-593 | An applying or applied record has a revision below zero for each operation that asserts its document missing, and for each that asserts it there, or with some content, the document was there at the revision read and met the condition |
| Decisions.AbortedForAReason | Godeps/_workspace/src/labix.org/v2/mgo/txn/flusher.go:541-652 | A record becomes aborting only if some assertion fails: a document that is to be missing was read at a revision or was to be changed before, or one that is to be there is missing, has moved on, or does not meet the condition |
| Decisions.NothingAsserted | Godeps/_workspace/src/labix.org/v2/mgo/txn/flusher.go:541-593 | A transaction that asserts nothing is never aborted |
| Decisions.MissingAsserted | Godeps/_workspace/src/labix.org/v2/mgo/txn/flusher.go:541-593 | One that only asks for missing documents is aborted only if one of them is there or was to be changed before |
| Decisions.PresentIsNotMissing | Godeps/_workspace/src/labix.org/v2/mgo/txn/flusher.go:541-593 | A transaction with an operation that asks for its document to be missing, on one that is there, is never applied |
| Decisions.ChangedAsAsserted | Godeps/_workspace/src/labix.org/v2/mgo/txn/flusher.go:681-913 | Every effect is on a document that no operation asks to be missing; a transaction's first update on it takes effect on the very revision on which the assertions on it were decided, and each further one on the revision behind the one before |
| Decisions.AppliedTookEffect | Godeps/_workspace/src/labix.org/v2/mgo/txn/flusher.go:681-913 | Each update of an applied transaction on a document that there was has taken effect, unless a runner found the document out of its reach: missing, at another revision, or without the token |
| Dequeued.ApplyDoes | Godeps/_workspace/src/labix.org/v2/mgo/txn/flusher.go:681-913 | Applying one operation: which document and revision it changes, and which entries leave the document's queue, the transaction's own one at its last update on it alone |
| Dequeued.PullDoes | Godeps/_workspace/src/labix.org/v2/mgo/txn/flusher.go:595-652 | On the way to the abort what may go is taken out of each document's queue once, at the first operation on it |
| Dequeued.BlockedIsBehind | Godeps/_workspace/src/labix.org/v2/mgo/txn/flusher.go:500-514 | A queue blocks a token if and only if it has an entry of another transaction that the token is not in front of |
| Dequeued.RunWaits | Godeps/_workspace/src/labix.org/v2/mgo/txn/flusher.go:221-498 | Throughout every run a flusher reports prerequisites only if it is not forced and there are some, goes on to the assertions only with its token in all queues, and unforced only where there are none, and looks at most three times for a document that is gone |
| Flusher.LogGrows | Godeps/_workspace/src/labix.org/v2/mgo/txn/flusher.go:702-763 | Effects are only added, never undone |
| Flusher.AbortedHasNoEffect | Godeps/_workspace/src/labix.org/v2/mgo/txn/flusher.go:595-651 | No update of a transaction that aborts takes effect at any point of the run |
| Flusher.RevisionCountsEffects | Godeps/_workspace/src/labix.org/v2/mgo/txn/flusher.go:716-763 | A document's revision number is its first one and one more for each effect on it |
| Flusher.ReturnedTruth | Godeps/_workspace/src/labix.org/v2/mgo/txn/flusher.go:156-187 | When advance returns without error, its copy is applied or aborted and the stored record says so too; an aborted one has had no effect |
| Flusher.NoPanic | Godeps/_workspace/src/labix.org/v2/mgo/txn/flusher.go:388-692 | The panics over a transaction in an invalid state (prepare, rescan, assert, abortOrReload, checkpoint, apply) are unreachable |
| TokensKept.NoTokenLost | Godeps/_workspace/src/labix.org/v2/mgo/txn/flusher.go:440-475 | In any run with any number of runners and crashes, if new tokens are new and what a runner may take out of a queue is settled when it does, a prepared transaction's token is in the queues of all its documents, and the panic of rescan over a document that misses its token is not reached |
| TokensKept.KeptExactly | Godeps/_workspace/src/labix.org/v2/mgo/txn/flusher.go:440-475 | In any run in which new tokens are new, all tokens are at every moment in the queues that have to have them if and only if no step takes one out of such a queue; and then that panic is not reached |
| Runners.CourseIsRun | Godeps/_workspace/src/labix.org/v2/mgo/txn/flusher.go:32-154 | What runners do one after the other (recurse over the queues read so far, then the calls of the plan, with their pull sets) is a run of the protocol |
| Runners.SettleIs | Godeps/_workspace/src/labix.org/v2/mgo/txn/flusher.go:131-154 | recurse goes on with the first entry ahead, in the order of the documents and then of the transactions below, whose transaction has not been seen, and is through exactly if there is none |
| Runners.OrderedIs | Godeps/_workspace/src/labix.org/v2/mgo/txn/txn.go:92-110 | The documents of a transaction are gone through in increasing order, each once |
| LostToken.TokenIsLost | Godeps/_workspace/src/labix.org/v2/mgo/txn/flusher.go:464-474 | The panic is reached all the same: a course of three runners over two transactions queued in opposite orders, one of which is applied by a second runner that comes to it in recurse, pulls what is ahead of it, and so takes the token of the other one, still prepared, out of its queue |
| TokensKept.NextKept | Godeps/_workspace/src/labix.org/v2/mgo/txn/flusher.go:190-475 | Every step of any runner keeps it that stored tokens, and those being entered, are where they belong, and that a runner whose rescan has missed its token finds the transaction past being prepared |
| TokensKept.PlanPullsSettled | Godeps/_workspace/src/labix.org/v2/mgo/txn/flusher.go:97-127 | In the plan's order, what the pull set of a flush takes out of a queue that has been seen is settled: of a transaction on its way to its end, or left over from a token it was not prepared with |
| TokensKept.GoalPullsSettled | Godeps/_workspace/src/labix.org/v2/mgo/txn/flusher.go:86-95 | So is what a goal without prerequisites takes out when it is flushed by itself |
| TokensKept.OwnPullsSettled | Godeps/_workspace/src/labix.org/v2/mgo/txn/flusher.go:500-514 | And a transaction that waits for nothing takes out entries of its own alone |
| Flusher.HasPreReqs | Godeps/_workspace/src/labix.org/v2/mgo/txn/flusher.go:500-514 | Prerequisites are reported exactly when in some queue a token of another transaction is before the token or the token is missing; found exactly when every queue has it |
| Flusher.RevnosAgree | Godeps/_workspace/src/labix.org/v2/mgo/txn/flusher.go:345-366 | prepare and rescan compute the same revision numbers if and only if no update on a document that is missing is followed by another operation on it |
| Flusher.RevnosDiffer | Godeps/_workspace/src/labix.org/v2/mgo/txn/flusher.go:485-491 | An input on which the two computations differ |
| YamlEvents.PrefixIsAccepted | Godeps/_workspace/src/gopkg.in/yaml.v1/parserc.go:7-43 | A sequence of events is a prefix of a stream of the grammar if and only if the pushdown automaton over it does not fail |
| YamlEvents.StreamIsAccepted | Godeps/_workspace/src/gopkg.in/yaml.v1/parserc.go:7-43 | It is a whole stream if and only if the automaton ends in its final position |
| YamlEvents.StreamIsUnique | Godeps/_workspace/src/gopkg.in/yaml.v1/parserc.go:7-43 | Different documents have different events: a stream has one derivation |
| YamlEvents.NodeAccepted | Godeps/_workspace/src/gopkg.in/yaml.v1/parserc.go:7-43 | Every derivation of a node, inside any open collections, completes exactly one node |
| YamlEvents.ExtendCorrect | Godeps/_workspace/src/gopkg.in/yaml.v1/parserc.go:7-43 | An accepted event extends a partial derivation to one that yields the events so far and stands at the automaton's position |
| YamlEvents.Completion | Godeps/_workspace/src/gopkg.in/yaml.v1/parserc.go:7-43 | Every partial derivation can be completed to a stream |
| YamlParser.StepGoes | Godeps/_workspace/src/gopkg.in/yaml.v1/parserc.go:93-170 | From every state that fits its stacks, an event that is delivered is one that the event grammar allows there, the state behind it fits its stacks, and a measure of tokens and states decreases; a FIRST state has its token; no stack underflows |
| YamlParser.Parser.Parse | Godeps/_workspace/src/gopkg.in/yaml.v1/parserc.go:62-73 | One call delivers the machine's next event or fails; an event is allowed at the present position and brings the end nearer; after an error or the end nothing changes |
| YamlParser.Parser.StateMachine | Godeps/_workspace/src/gopkg.in/yaml.v1/parserc.go:93-170 | In every state the production called does the machine's step: event, state, stacks, directives and token taken; a token that is available is there |
| YamlParser.Parser.PeekToken | Godeps/_workspace/src/gopkg.in/yaml.v1/parserc.go:46-52 | The token at the head is made available without being consumed, or the parser fails at the end of the tokens |
| YamlParser.Parser.ParseNode | Godeps/_workspace/src/gopkg.in/yaml.v1/parserc.go:360-574 | A node: an alias, or properties and then a scalar with its implicit flags, the start of a collection that is allowed in its place, or an empty scalar if the properties say something; anything else fails |
| YamlParser.Parser.ParseProperties | Godeps/_workspace/src/gopkg.in/yaml.v1/parserc.go:381-442 | At most one anchor and one tag in either order; the tag is the machine's for its handle and suffix, which `YamlMeaning.TagIs` says in terms of the tokens, and fails if there is none |
| YamlParser.Parser.ParseDocumentStart | Godeps/_workspace/src/gopkg.in/yaml.v1/parserc.go:199-277 | An implicit document, an explicit one behind its directives, or the end of the stream, past the document ends in front of it |
| YamlParser.Parser.ParseDocumentContent | Godeps/_workspace/src/gopkg.in/yaml.v1/parserc.go:283-299 | An empty scalar before a directive, a document mark or the end of the stream, and a node before anything else |
| YamlParser.Parser.ParseDocumentEnd | Godeps/_workspace/src/gopkg.in/yaml.v1/parserc.go:306-332 | The end of a document, explicit exactly if its mark is there; the tag directives are reset |
| YamlParser.Parser.ParseBlockSequenceEntry | Godeps/_workspace/src/gopkg.in/yaml.v1/parserc.go:580-627 | A node or an empty scalar behind an entry indicator, the end of the sequence, or an error |
| YamlParser.Parser.ParseIndentlessSequenceEntry | Godeps/_workspace/src/gopkg.in/yaml.v1/parserc.go:632-664 | The same for a sequence without indentation, which any other token ends without being consumed |
| YamlParser.Parser.ParseBlockMappingKey | Godeps/_workspace/src/gopkg.in/yaml.v1/parserc.go:676-722 | A key behind its indicator, empty before another key, a value or the end; the end of the mapping; an error before anything else |
| YamlParser.Parser.ParseBlockMappingValue | Godeps/_workspace/src/gopkg.in/yaml.v1/parserc.go:734-757 | A value behind its indicator, empty before a key, another value or the end; an empty one if there is no indicator |
| YamlParser.Parser.ParseFlowSequenceEntry | Godeps/_workspace/src/gopkg.in/yaml.v1/parserc.go:771-827 | Behind the comma that is needed between entries: a node, the start of a single pair at a key, or the end |
| YamlParser.Parser.ParseFlowSequenceEntryMappingKey | Godeps/_workspace/src/gopkg.in/yaml.v1/parserc.go:834-849 | The key of a single pair; where there is none, an empty scalar, and the indicator at hand is consumed |
| YamlParser.Parser.ParseFlowSequenceEntryMappingValue | Godeps/_workspace/src/gopkg.in/yaml.v1/parserc.go:855-873 | The value of a single pair behind its indicator, or an empty scalar |
| YamlParser.Parser.ParseFlowSequenceEntryMappingEnd | Godeps/_workspace/src/gopkg.in/yaml.v1/parserc.go:879-891 | The end of a single pair, without consuming a token |
| YamlParser.Parser.ParseFlowMappingKey | Godeps/_workspace/src/gopkg.in/yaml.v1/parserc.go:905-965 | Behind the comma that is needed between entries: a key behind its indicator or without one, or the end |
| YamlParser.Parser.ParseFlowMappingValue | Godeps/_workspace/src/gopkg.in/yaml.v1/parserc.go:971-993 | A value behind its indicator, or an empty scalar; always empty behind a key without an indicator |
| YamlParser.Parser.ProcessDirectives | Godeps/_workspace/src/gopkg.in/yaml.v1/parserc.go:1014-1073 | The directives at hand are added to those of the document, and the default ones for other handles; a second version, another version than 1.1 or a handle declared twice fails |
| YamlParser.Events | Godeps/_workspace/src/gopkg.in/yaml.v1/parserc.go:62-170 | For every token sequence the events of repeated calls are a prefix of a well-formed stream; they are a whole stream if the parser reaches its end, and otherwise no further event can be delivered; there are at most eight per token and one more |
| YamlGrammar.FormParsed | Godeps/_workspace/src/gopkg.in/yaml.v1/parserc.go:360-993 | On the tokens of any derivation of a node, in any place where that node may stand, the parser delivers the events of the node, and comes back to the state it was pushed for with the tokens consumed |
| YamlGrammar.DirectedIs | Godeps/_workspace/src/gopkg.in/yaml.v1/parserc.go:1014-1073 | Directives are accepted if and only if there is at most one version, which is 1.1, and no handle is declared twice; they declare their handles in order, and the default ones where those are free |
| YamlGrammar.StreamParsed | Godeps/_workspace/src/gopkg.in/yaml.v1/parserc.go:7-43 | On the tokens of any derivation of a stream the parser delivers the events of its documents and comes to its end |
| YamlAccepted.NodeRead | Godeps/_workspace/src/gopkg.in/yaml.v1/parserc.go:360-993 | Where a node is parsed on the way to the end, the tokens consumed are those of a derivation of a node that is allowed there |
| YamlAccepted.StreamRead | Godeps/_workspace/src/gopkg.in/yaml.v1/parserc.go:7-43 | The tokens of a parser that comes to its end begin with those of a derivation of a stream |
| YamlAccepted.Accepted | Godeps/_workspace/src/gopkg.in/yaml.v1/parserc.go:7-43 | The parser comes to its end if and only if the tokens begin with those of an allowed derivation; `YamlComment.StreamIs` compares these with the grammar of the comment |
| YamlAccepted.ReadEvents | Godeps/_workspace/src/gopkg.in/yaml.v1/parserc.go:46-170 | Calling the parser until it stops gives all the events of the derivation's documents exactly if there is a derivation, and a prefix of some stream otherwise |
| YamlMeaning.TagIs | Godeps/_workspace/src/gopkg.in/yaml.v1/parserc.go:423-455 | In a document with proper directives a node written with a handle and a suffix gets exactly the tag that they stand for: the declared prefix and the suffix; where nothing is declared, the suffix behind ! or tag:yaml.org,2002: for the two handles that have a prefix anyway; the suffix alone without a handle; no tag at all otherwise |
| YamlMeaning.InForce | Godeps/_workspace/src/gopkg.in/yaml.v1/parserc.go:1014-1073 | The directives in force are those declared, and the two default ones for the handles that are not |
| YamlMeaning.TreeMeans | Godeps/_workspace/src/gopkg.in/yaml.v1/parserc.go:360-993 | The tree of the events delivered is what is written: anchors, tags by what their handles stand for, implicit flags from style and tag, values, structure, and empty scalars where nothing is written |
| YamlMeaning.TokensMean | Godeps/_workspace/src/gopkg.in/yaml.v1/parserc.go:46-170 | From the tokens of any accepted stream the parser delivers documents whose roots are what is written in them |
| YamlAccepted.ValueAloneFails | Godeps/_workspace/src/gopkg.in/yaml.v1/parserc.go:676-722 | The tokens of a block mapping whose value has no key are not accepted |
| YamlAccepted.NoKeyFails | Godeps/_workspace/src/gopkg.in/yaml.v1/parserc.go:834-849 | The tokens of a single pair with a value and no key are not accepted |
| YamlAccepted.TwoBracketsAccepted | Godeps/_workspace/src/gopkg.in/yaml.v1/parserc.go:834-849 | The tokens of a flow sequence with one closing bracket too many behind a key indicator are accepted |
| YamlComment.StreamIs | Godeps/_workspace/src/gopkg.in/yaml.v1/parserc.go:7-43 | A derivation of a stream is accepted with no indicator swallowed if and only if the comment's grammar has it, tags have known handles and directives are proper, properties alone say something, values have keys, and pairs of flow sequences have keys |
| YamlComment.AllowedIs | Godeps/_workspace/src/gopkg.in/yaml.v1/parserc.go:7-43 | The same for a node in any place |
| YamlComment.ValueAloneDocumented | Godeps/_workspace/src/gopkg.in/yaml.v1/parserc.go:676-722 | The tokens of a block mapping whose value has no key are in the comment's grammar, and the parser does not accept them |
| YamlComment.NoKeyDocumented | Godeps/_workspace/src/gopkg.in/yaml.v1/parserc.go:834-849 | So are those of a pair of a flow sequence with a value and no key |
| YamlComment.NothingSaidDocumented | Godeps/_workspace/src/gopkg.in/yaml.v1/parserc.go:360-574 | So are those of a tag of no characters, alone |
| YamlComment.TwoBracketsNotDocumented | Godeps/_workspace/src/gopkg.in/yaml.v1/parserc.go:834-849 | The tokens with one closing bracket too many are accepted, and no derivation of the comment's grammar has them |
| YamlComposer.Composer.Skip | Godeps/_workspace/src/gopkg.in/yaml.v1/decode.go:65-75 | Parses the next event; a parser error fails |
| YamlComposer.Composer.Start | Godeps/_workspace/src/gopkg.in/yaml.v1/decode.go:38-56 | The stream start is consumed |
| YamlComposer.Composer.ParseNode | Godeps/_workspace/src/gopkg.in/yaml.v1/decode.go:103-160 | One node of the grammar is consumed, and the node built is the one of its derivation tree |
| YamlComposer.Composer.ParseSequence | Godeps/_workspace/src/gopkg.in/yaml.v1/decode.go:162-171 | The children are the nodes of the items, in order, and the anchor is entered before them |
| YamlComposer.Composer.ParseMapping | Godeps/_workspace/src/gopkg.in/yaml.v1/decode.go:173-182 | The children are keys and values in turn |
| YamlComposer.Composer.ParseDocument | Godeps/_workspace/src/gopkg.in/yaml.v1/decode.go:132-143 | The node and the anchors are those of the document's derivation tree, and exactly the document's events are consumed |
| YamlComposer.Compose | Godeps/_workspace/src/gopkg.in/yaml.v1/decode.go:38-182 | From any tokens the composer never meets an unexpected event; what it returns is the tree of the first document of the stream, with its anchors, or none for an empty stream; and it fails exactly if the parser does not deliver a first document and an event behind it |
| YamlComposer.NumbersDiffer | Godeps/_workspace/src/gopkg.in/yaml.v1/decode.go:124-130 | Nodes of one document have different numbers: a number is the identity of a node |
| YamlComposer.ToldIsKept | Godeps/_workspace/src/gopkg.in/yaml.v1/decode.go:124-160 | The nodes of a document, in order, tell exactly what its events say: tags, values, implicit flags, the names of aliases, and the beginnings and ends of collections |
| YamlComposer.AnchorsAreNodes | Godeps/_workspace/src/gopkg.in/yaml.v1/decode.go:97-101 | Every anchor refers to a node of the document with that number, which is no alias |
| YamlComposer.AnchorRefers | Godeps/_workspace/src/gopkg.in/yaml.v1/decode.go:97-150 | An anchor of a finished document refers to exactly one node of it |
| YamlDecoder.UnfoldsToOne | Godeps/_workspace/src/gopkg.in/yaml.v1/decode.go:279-291 | A node has at most one unfolding of its aliases |
| YamlDecoder.NoSelfReference | Godeps/_workspace/src/gopkg.in/yaml.v1/decode.go:279-291 | A node whose aliases can be unfolded refers to itself through no chain of aliases |
| YamlDecoder.UnfoldsWhenResolvable | Godeps/_workspace/src/gopkg.in/yaml.v1/decode.go:252-291 | A node has a finite unfolding if and only if every alias inside is known and no anchor is met while it is being resolved |
| YamlDecoder.MergingOverrides | Godeps/_workspace/src/gopkg.in/yaml.v1/decode.go:456-503 | Decoding entries into a map that has entries already overrides them, and is decoding them by themselves first |
| YamlDecoder.EarliestWins | Godeps/_workspace/src/gopkg.in/yaml.v1/decode.go:534-562 | Of a merged sequence, the value of a key comes from the earliest mapping that has it |
| YamlDecoder.Decoder.Unmarshal | Godeps/_workspace/src/gopkg.in/yaml.v1/decode.go:252-268 | Terminates, by the anchors not being resolved and then the node; yields the meaning of the node's unfolding if it has one; restores the aliases when it succeeds; an unfoldable node does not fail for its aliases. What the meaning of a scalar is, is said by `YamlMeaning.UnmarshalScalar`, of a mapping by `YamlReferences` |
| YamlDecoder.Decoder.UnmarshalAlias | Godeps/_workspace/src/gopkg.in/yaml.v1/decode.go:279-291 | The same for an alias, which fails if it is unknown or being resolved |
| YamlDecoder.Decoder.UnmarshalSequence | Godeps/_workspace/src/gopkg.in/yaml.v1/decode.go:427-454 | The values of the items, in order |
| YamlDecoder.Decoder.UnmarshalMapping | Godeps/_workspace/src/gopkg.in/yaml.v1/decode.go:456-503 | The entries from first to last, merge keys where they stand |
| YamlDecoder.Decoder.Merge | Godeps/_workspace/src/gopkg.in/yaml.v1/decode.go:534-562 | The entries of a mapping, of an alias to one, or of a sequence of these from last to first; aliases are restored |
| YamlDecoder.Decode | Godeps/_workspace/src/gopkg.in/yaml.v1/decode.go:252-291 | For every composed document: the meaning of its unfolding if it is resolvable, and failure if and only if it is not or its meaning fails |
| YamlMeaning.UnmarshalScalar | Godeps/_workspace/src/gopkg.in/yaml.v1/decode.go:303-418 | From the tokens of a document that is one scalar: a quoted one without a tag is a string with tag:yaml.org,2002:str, whatever the resolver knows; any other one is what the resolver makes of its tag and its text, null is nil, and a mismatch fails |
| YamlDecoder.ComposedIsPaired | Godeps/_workspace/src/gopkg.in/yaml.v1/decode.go:173-182 | Every mapping of a composed document has a value for each key |
| YamlDecoder.AnchorsOf | Godeps/_workspace/src/gopkg.in/yaml.v1/decode.go:97-101 | The anchors of a composed document determine the nodes they refer to |
| YamlReferences.AnchorIsLast | Godeps/_workspace/src/gopkg.in/yaml.v1/decode.go:97-101 | Of a composed document, an anchor stands for the node with the greatest number among those that have it, and for none if there is none |
| YamlReferences.AliasesAsMeantExactly | Godeps/_workspace/src/gopkg.in/yaml.v1/decode.go:97-150 | Every alias stands for the last node before it with its anchor, or for none, if and only if no anchor is given behind an alias for it |
| YamlReferences.AliasAhead | Godeps/_workspace/src/gopkg.in/yaml.v1/decode.go:279-291 | The document [*a, &a x] is decoded to a list of twice x: the alias stands for a node behind it |
| YamlReferences.AnchorAgain | Godeps/_workspace/src/gopkg.in/yaml.v1/decode.go:279-291 | The document [&a x, *a, &a y] is decoded to x, y, y: the alias does not stand for the node before it |
| YamlReferences.LastGives | Godeps/_workspace/src/gopkg.in/yaml.v1/decode.go:456-503 | The value of a key is the one from the last entry that has it or merge key that brings it |
| YamlReferences.MappingDecodes | Godeps/_workspace/src/gopkg.in/yaml.v1/decode.go:456-566 | A mapping is decoded if and only if each entry is: behind a plain << or one tagged tag:yaml.org,2002:merge a mapping, an alias to one, or a list of these that can be decoded; otherwise, a quoted << too, a value that can be, behind a key that is neither list nor mapping |
| YamlReferences.ExplicitKeptExactly | Godeps/_workspace/src/gopkg.in/yaml.v1/decode.go:456-503 | The explicit entries of a mapping keep their values if and only if behind none of them the last merge key that brings its key brings another value |
| YamlReferences.MergeBehind | Godeps/_workspace/src/gopkg.in/yaml.v1/decode.go:456-503 | The document {a: 1, <<: {a: 2}} is decoded to a mapping of a to 2 |
| YamlEmitter.StepFollows | Godeps/_workspace/src/gopkg.in/yaml.v1/emitterc.go:211-738 | From every control state a step is taken if and only if the event grammar allows the event; it leads where the grammar says; no stack underflows, and flow level and indents fit the states |
| YamlEmitter.StepsFollow | Godeps/_workspace/src/gopkg.in/yaml.v1/emitterc.go:113-127 | The same for any number of events from the start |
| YamlEmitter.NodePrinted | Godeps/_workspace/src/gopkg.in/yaml.v1/emitterc.go:648-738 | Over the events of any tree the machine writes what a printer that recurses over the tree writes, and returns to the state it was pushed for |
| YamlEmitter.ItemsPrinted | Godeps/_workspace/src/gopkg.in/yaml.v1/emitterc.go:456-501 | Items of a sequence: brackets and commas in flow style, dashes in block style |
| YamlEmitter.PairsPrinted | Godeps/_workspace/src/gopkg.in/yaml.v1/emitterc.go:504-575 | Pairs of a mapping, simple and complex keys, in flow and block style |
| YamlEmitter.StreamPrinted | Godeps/_workspace/src/gopkg.in/yaml.v1/emitterc.go:113-738 | Over any stream of the grammar the machine ends in its end state with empty stacks and has written what the recursive printer writes |
| YamlEmitter.WaitsForEvents | Godeps/_workspace/src/gopkg.in/yaml.v1/emitterc.go:136-170 | No collection is begun before the event behind its start is there, so whether it is empty is decided right |
| YamlEmitter.StepsExtend | Godeps/_workspace/src/gopkg.in/yaml.v1/emitterc.go:136-170 | The steps taken on a part of the events are those that would be taken with all events at hand |
| YamlEmitter.Drained | Godeps/_workspace/src/gopkg.in/yaml.v1/emitterc.go:136-170 | When the events received are a whole stream, no event is kept waiting in the queue |
| YamlEmitter.Emitter.NeedMoreEvents | Godeps/_workspace/src/gopkg.in/yaml.v1/emitterc.go:136-170 | More events are needed exactly if the queue is empty, or it has at most one, two or three events for the start of a document, sequence or mapping at its head and none of them closes it |
| YamlEmitter.Emitter.EmitFlowSequenceItem | Godeps/_workspace/src/gopkg.in/yaml.v1/emitterc.go:456-501 | Does the step of the machine: brackets, commas, states, indents and flow level |
| YamlEmitter.Emitter.EmitFlowMappingKey | Godeps/_workspace/src/gopkg.in/yaml.v1/emitterc.go:504-555 | The same for keys of a flow mapping, simple ones or with a question mark |
| YamlEmitter.Emitter.EmitFlowMappingValue | Godeps/_workspace/src/gopkg.in/yaml.v1/emitterc.go:558-575 | The same for values of a flow mapping |
| YamlEmitter.Emitter.EmitBlockSequenceItem | Godeps/_workspace/src/gopkg.in/yaml.v1/emitterc.go:578-599 | The same for items of a block sequence |
| YamlEmitter.Emitter.EmitBlockMappingKey | Godeps/_workspace/src/gopkg.in/yaml.v1/emitterc.go:602-627 | The same for keys of a block mapping |
| YamlEmitter.Emitter.EmitBlockMappingValue | Godeps/_workspace/src/gopkg.in/yaml.v1/emitterc.go:630-645 | The same for values of a block mapping |
| YamlEmitter.Emitter.EmitNode | Godeps/_workspace/src/gopkg.in/yaml.v1/emitterc.go:648-738 | A node, with its content; the style of a collection from flow level, canonical form, its own style and emptiness |
| YamlEmitter.Emitter.EmitDocumentStart | Godeps/_workspace/src/gopkg.in/yaml.v1/emitterc.go:311-422 | For documents without directives: the document mark, where it is not implicit, and the end of the stream, flushed |
| YamlEmitter.Emitter.EmitDocumentEnd | Godeps/_workspace/src/gopkg.in/yaml.v1/emitterc.go:431-453 | The end of a document, flushed |
| YamlEmitter.Emitter.StateMachine | Godeps/_workspace/src/gopkg.in/yaml.v1/emitterc.go:211-269 | Every state dispatches to the production that does its step |
| YamlEmitter.Emitter.Emit | Godeps/_workspace/src/gopkg.in/yaml.v1/emitterc.go:113-127 | One event is taken; what need not wait is written in order; with valid contents and a reliable writer it fails only if the events are no prefix of a stream; at the end of a stream queue and stacks are empty |
| YamlEmitter.EmitStream | Godeps/_workspace/src/gopkg.in/yaml.v1/emitterc.go:113-738 | Every stream with valid contents is written to its end: the write handler has got exactly the bytes of the signs that the recursive printer writes, in order, each content worded for the place where it stands, with exactly the blanks and line breaks between that the printer's orders make necessary; a mark follows only if the last document has an implicit end; queue, stacks and buffer are empty |
| YamlEmitter.Emitter.IncreaseIndent | Godeps/_workspace/src/gopkg.in/yaml.v1/emitterc.go:196-208 | The indentation is pushed, and is the one of the layout's rules afterwards |
| YamlEmitter.Emitter.WriteIndent | Godeps/_workspace/src/gopkg.in/yaml.v1/emitterc.go:1201-1219 | An order to go on at the indentation is carried out: index, line, column, whitespace and indention are those of the layout of all signs so far |
| YamlEmitter.Emitter.WriteIndicator | Godeps/_workspace/src/gopkg.in/yaml.v1/emitterc.go:1221-1234 | An indicator is written, behind a blank where it needs one, and stands where the layout has it |
| YamlEmitter.WayIsAsLong | Godeps/_workspace/src/gopkg.in/yaml.v1/emitterc.go:1201-1219 | The line break and blanks on the way to a column are as many as the layout has them |
| YamlLayout.StyleIs | Godeps/_workspace/src/gopkg.in/yaml.v1/emitterc.go:707-738 | A collection is in brackets exactly inside of another such one, in canonical form, if its event says so, or if it is empty; what is inside goes on further in by the best indentation, but for a block collection on the outside and for a sequence in a mapping that has something in front of it in its line |
| YamlLayout.ValueStands | Godeps/_workspace/src/gopkg.in/yaml.v1/emitterc.go:578-599 | A block sequence that is the value of a simple key has its dashes at the column of the key |
| YamlLayout.PrintedHas | Godeps/_workspace/src/gopkg.in/yaml.v1/emitterc.go:456-645 | In canonical form there are as many brackets and braces as collections, a comma for each entry, a question mark and a colon for each pair, and no dash; in any form there is a colon for each pair, and no mark of a document inside of one |
| YamlLayout.DocumentsMarked | Godeps/_workspace/src/gopkg.in/yaml.v1/emitterc.go:311-453 | There is one --- for each document but a first one that is implicit outside of canonical form, and one ... for each document whose end is explicit |
| YamlLayout.LineBegins | Godeps/_workspace/src/gopkg.in/yaml.v1/emitterc.go:1201-1219 | Where an order to go on at a column begins a new line, and that in a flow collection only canonical form and a column behind the best width make it do so |
| YamlLayout.LayInPlace | Godeps/_workspace/src/gopkg.in/yaml.v1/emitterc.go:1201-1257 | What any signs are laid out to is in order: each piece has some extent and ends before the next begins |
| YamlForms.NodeReread | Godeps/_workspace/src/gopkg.in/yaml.v1/emitterc.go:798-844 | If contents are written so that they can be read, the derivation that is printed is allowed in the node's place and means the same node: structure, anchors, tags and values |
| YamlForms.StreamReread | Godeps/_workspace/src/gopkg.in/yaml.v1/emitterc.go:311-422 | A stream is printed in the parser's grammar if and only if its first document has a mark or something is printed for its root; the documents are the same |
| YamlPlaced.IndicatorScanned | Godeps/_workspace/src/gopkg.in/yaml.v1/scannerc.go:1193-1271 | A dash, question mark or colon at the indentation, in a new line or still in the blanks before the first content, ends what is further in, begins its collection if that has not begun, and leaves a key allowed |
| YamlPlaced.SimpleKeyScanned | Godeps/_workspace/src/gopkg.in/yaml.v1/scannerc.go:1274-1336 | A key laid out without a question mark, in block or flow style, gets its KEY, and the mapping its start, in front of the tokens that were queued for it |
| YamlPlaced.NodeScanned | Godeps/_workspace/src/gopkg.in/yaml.v1/emitterc.go:456-670 | What is laid out for any node, in flow or block style, is scanned to exactly the tokens of its derivation; outside of flow collections the ends of block collections come when the next line is not as far in |
| YamlPlaced.StreamScanned | Godeps/_workspace/src/gopkg.in/yaml.v1/scannerc.go:665-838 | What is laid out for a stream is scanned, by lines and columns alone, without an error or a panic to exactly the tokens of its derivation |
| YamlRoundTrip.RoundTrip | Godeps/_workspace/src/gopkg.in/yaml.v1/emitterc.go:113-738 | What the emitter writes for a stream, however far the scanner reads on behind plain and block scalars, is scanned to tokens from which the parser delivers the events of the same documents, unless the first one has no mark and nothing printed for its root |
| YamlRoundTrip.CanBeRead | Godeps/_workspace/src/gopkg.in/yaml.v1/scannerc.go:2560-2710 | What any signs are laid out to can be read: there are lexemes for it |
| YamlRoundTrip.LaidAlike | Godeps/_workspace/src/gopkg.in/yaml.v1/emitterc.go:113-738 | Two legible streams that are laid out to the same pieces, whatever trees they have, are streams of the same documents, unless the first one of either has no mark and nothing printed for its root |
| YamlRoundTrip.EmptyDocumentIsLost | Godeps/_workspace/src/gopkg.in/yaml.v1/emitterc.go:741-743 | An empty plain scalar in a document without a mark: nothing is printed, and the parser delivers a stream without documents |
| YamlOutput.OutputBuffer.Flush | Godeps/_workspace/src/gopkg.in/yaml.v1/writerc.go:11-28 | Hands the buffer to the handler; flushed bytes and buffer together stay the same, and the buffer is empty on success |
| YamlOutput.OutputBuffer.Put | Godeps/_workspace/src/gopkg.in/yaml.v1/emitterc.go:16-24 | Flushed bytes and buffer grow by the byte, whether the buffer is full or not; never an index out of range |
| YamlOutput.OutputBuffer.PutBreak | Godeps/_workspace/src/gopkg.in/yaml.v1/emitterc.go:27-48 | The same for a line break of each kind |
| YamlOutput.OutputBuffer.Write | Godeps/_workspace/src/gopkg.in/yaml.v1/emitterc.go:51-76 | The same for a character of one to four bytes |
| YamlScanner.TokenQueue.Insert | Godeps/_workspace/src/gopkg.in/yaml.v1/apic.go:8-25 | The token is inserted at its position behind the head, or appended; compacting and growing keep the queue's contents |
| YamlScanner.Scanner.StaleSimpleKeys | Godeps/_workspace/src/gopkg.in/yaml.v1/scannerc.go:842-863 | Exactly the keys of an earlier line or more than 1024 characters back are no longer possible; fails exactly if one of them is required |
| YamlScanner.Scanner.SaveSimpleKey | Godeps/_workspace/src/gopkg.in/yaml.v1/scannerc.go:867-897 | Where allowed, the key at the present flow level is the next token to be fetched; panics if and only if, outside of flow collections, the place is the indentation's column and no key is allowed there |
| YamlScanner.Scanner.RollIndent | Godeps/_workspace/src/gopkg.in/yaml.v1/scannerc.go:937-961 | In block context and deeper than the present indentation, the start of a collection is inserted at its number and the indentation pushed |
| YamlScanner.Scanner.UnrollIndent | Godeps/_workspace/src/gopkg.in/yaml.v1/scannerc.go:966-987 | In block context, one BLOCK-END is appended for each indentation deeper than the column, and nothing else |
| YamlScanner.Scanner.FetchSimpleValue | Godeps/_workspace/src/gopkg.in/yaml.v1/scannerc.go:1274-1336 | The key token, and the start of the block mapping, land directly before the token that was fetched when the key was saved, which is not consumed yet and starts at the key's mark; then the value token is appended |
| YamlScanner.Scanner.FetchValue | Godeps/_workspace/src/gopkg.in/yaml.v1/scannerc.go:1274-1336 | The same; without a simple key a value fails in block context where no key is allowed, and starts a block mapping where it is deeper than the indentation |
| YamlScanner.Scanner.FetchMoreTokens | Godeps/_workspace/src/gopkg.in/yaml.v1/scannerc.go:626-662 | A token is available at the end, and no possible simple key is at the head, so that nothing can still be inserted before it; consumed tokens stay as they are; an error or a panic is that of the whole text |
| YamlScanner.Scanner.FetchStreamEnd | Godeps/_workspace/src/gopkg.in/yaml.v1/scannerc.go:1016-1044 | Outside of flow collections all block collections are ended; a required key that is left fails |
| YamlScanner.Scanner.FetchFlowStart | Godeps/_workspace/src/gopkg.in/yaml.v1/scannerc.go:1105-1133 | The start may be a key itself; the flow level grows by one and gets a key of its own, and a key may follow |
| YamlScanner.Scanner.FetchFlowEnd | Godeps/_workspace/src/gopkg.in/yaml.v1/scannerc.go:1136-1165 | The key of the level is dropped with the level, which does not fall below zero; a key that is required fails; no key may follow |
| YamlScanner.Scanner.FetchBlockEntry | Godeps/_workspace/src/gopkg.in/yaml.v1/scannerc.go:1193-1232 | In block context an entry fails where no key is allowed, and starts a sequence where it is deeper than the indentation; a key may follow |
| YamlScanner.Scanner.FetchKey | Godeps/_workspace/src/gopkg.in/yaml.v1/scannerc.go:1235-1271 | In block context an explicit key fails where no key is allowed, and starts a mapping where it is deeper than the indentation; in block context a key may follow |
| YamlScanner.Scanner.PeekToken | Godeps/_workspace/src/gopkg.in/yaml.v1/parserc.go:46-52 | The token at the head is the first one not consumed |
| YamlScanner.Scanner.SkipToken | Godeps/_workspace/src/gopkg.in/yaml.v1/parserc.go:54-59 | Consuming keeps every possible key at or behind the tokens parsed |
| YamlScanner.KeysInsert | Godeps/_workspace/src/gopkg.in/yaml.v1/scannerc.go:1274-1305 | Inserting at the innermost key's number keeps all other keys' numbers right and strictly increasing with the flow level, none below the tokens parsed |
| YamlScanner.LevelInsert | Godeps/_workspace/src/gopkg.in/yaml.v1/scannerc.go:937-961 | An inserted token counts for the balance of block collections like an appended one |
| YamlScanner.OrderInsert | Godeps/_workspace/src/gopkg.in/yaml.v1/scannerc.go:1274-1305 | Inserting before a token that starts at the same mark keeps all tokens in the order of their marks |
| YamlScanner.PlacedInsert | Godeps/_workspace/src/gopkg.in/yaml.v1/scannerc.go:1274-1305 | It also keeps every opening token directly before one that starts at its place, and STREAM-END last |
| YamlScanner.StepPanics | Godeps/_workspace/src/gopkg.in/yaml.v1/scannerc.go:665-838 | Fetching panics if and only if a content or the start of a flow collection stands at the column of the indentation that is left there, outside of flow collections, where no key is allowed |
| YamlScanner.PanicsExactly | Godeps/_workspace/src/gopkg.in/yaml.v1/scannerc.go:842-906 | For every text: the scanner panics if and only if, with no error before, what could be a key follows without a line break behind a quoted scalar or a whole flow collection that ends on a later line than it starts, in a column at which a block collection that is open goes on |
| YamlScanner.NoPanic | Godeps/_workspace/src/gopkg.in/yaml.v1/scannerc.go:842-906 | It does not panic if every quoted scalar and every flow collection over several lines, outside of others, has a line break or nothing behind it |
| YamlScanner.QuotedPanics | Godeps/_workspace/src/gopkg.in/yaml.v1/scannerc.go:876-878 | A text with a quoted scalar over two lines on which it panics |
| YamlScanner.BracketedPanics | Godeps/_workspace/src/gopkg.in/yaml.v1/scannerc.go:876-878 | A text with a flow collection over two lines on which it panics |
| YamlScanner.ReachPanic | Godeps/_workspace/src/gopkg.in/yaml.v1/scannerc.go:571-662 | Scanning these texts token by token gets to the panic |
| YamlScanner.LevelIs | Godeps/_workspace/src/gopkg.in/yaml.v1/scannerc.go:966-987 | Of a text that can be scanned to its end, the block collections started and not ended are none if no flow collection is left open, and otherwise those that the outermost one left open is inside of |
| YamlScanner.UnclosedIsUnbalanced | Godeps/_workspace/src/gopkg.in/yaml.v1/scannerc.go:966-987 | A text with a flow collection left open inside of a block mapping, which is then not ended |
| YamlScanner.Scan | Godeps/_workspace/src/gopkg.in/yaml.v1/scannerc.go:571-662 | Asking for one token after the other gives, for any lexemes in order, the tokens, the error or the panic of the text as a whole; the tokens are in the order of their marks, an opening one stands directly before one that starts at its place, STREAM-END is last, and starts and ends of block collections are balanced but for those around an unclosed flow collection |
| DoubleQuoted.RoundTrip | Godeps/_workspace/src/gopkg.in/yaml.v1/emitterc.go:1429-1548 | Scanning what the double-quoted writer writes gives back the value, for every sequence of Unicode scalar values in UTF-8, every width and indentation, with and without line breaks allowed, escaped or literal non-ASCII characters |
| DoubleQuoted.Writer.WriteDoubleQuoted | Godeps/_workspace/src/gopkg.in/yaml.v1/emitterc.go:1429-1548 | The output is quotes around the text of pieces whose value is the string: escapes for exactly the characters that have to be escaped, literals for the others, and spaces; a line is broken at exactly those single spaces inside the value that stand behind the best width, if lines may be broken, and a space is escaped exactly behind such a break |
| DoubleQuoted.Writer.WriteEscaped | Godeps/_workspace/src/gopkg.in/yaml.v1/emitterc.go:1436-1519 | A character is decoded from UTF-8 and written as the shortest escape that the scanner knows for it |
| DoubleQuoted.Writer.WriteHex | Godeps/_workspace/src/gopkg.in/yaml.v1/emitterc.go:1496-1514 | A code is written with its width in hexadecimal digits |
| DoubleQuoted.HexRoundTrip | Godeps/_workspace/src/gopkg.in/yaml.v1/emitterc.go:1507-1514 | Reading the digits gives the code back |
| DoubleQuoted.DecodedBack | Godeps/_workspace/src/gopkg.in/yaml.v1/emitterc.go:1440-1458 | Decoding the bytes of a character as the writer does gives its code |
| DoubleQuoted.Scanner.Scan | Godeps/_workspace/src/gopkg.in/yaml.v1/scannerc.go:2304-2557 | On the text between quotes of any pieces (escapes by name or by code in two, four or eight digits of either case, literals, blanks, folded lines with any line breaks, escaped line breaks) the scanner returns their value and stands behind the closing quote; and whenever it succeeds the text is that of pieces with that value |
| DoubleQuoted.DigitsAre | Godeps/_workspace/src/gopkg.in/yaml.v1/yamlprivateh.go:41-55 | The scanner knows the sixteen digits in both cases, each with its value, and no others |
| DoubleQuoted.DenotesIs | Godeps/_workspace/src/gopkg.in/yaml.v1/scannerc.go:2431-2440 | The code of an escape is the number that its digits denote, least significant digit last |
| DoubleQuoted.EscapedIs | Godeps/_workspace/src/gopkg.in/yaml.v1/scannerc.go:2363-2418 | Each letter behind a backslash has the UTF-8 bytes of the character it names, and only the letters of the standard name one |
| DoubleQuoted.SpecialIs | Godeps/_workspace/src/gopkg.in/yaml.v1/emitterc.go:1429-1548 | The writer escapes exactly control characters, line separators, quotes, backslashes, byte order marks and characters that are not printable, and those outside ASCII if asked to; of a value that begins with a byte order mark all |
| DoubleQuoted.Scanner.ScanEscape | Godeps/_workspace/src/gopkg.in/yaml.v1/scannerc.go:2363-2467 | Every escape, by name or by code, however it is written, gives the UTF-8 bytes of its character; where no such escape is written it fails |
| DoubleQuoted.Scanner.ScanNonBlanks | Godeps/_workspace/src/gopkg.in/yaml.v1/scannerc.go:2337-2475 | On the text of pieces: literals and escapes up to a blank or the quote; an escaped line break is skipped |
| DoubleQuoted.Scanner.ScanBlanks | Godeps/_workspace/src/gopkg.in/yaml.v1/scannerc.go:2488-2539 | On the text of pieces: blanks are kept within a line; a single line break is folded to a space, and of more than one all but the first are kept |
| DoubleQuoted.IncreasedIndent | Godeps/_workspace/src/gopkg.in/yaml.v1/emitterc.go:196-208 | Inside a scalar the indentation is at least one, so that a folded line is never taken for a document mark |
| Bson.RoundTrip | Godeps/_workspace/src/labix.org/v2/mgo/bson/encode.go:81-122 | For every document below two gigabytes: encoding succeeds if and only if all object ids have twelve bytes; decoding gives back the document in its normal form if and only if no name or C string has a NUL byte, and uses exactly the bytes written |
| Bson.NormalIsSame | Godeps/_workspace/src/labix.org/v2/mgo/bson/decode.go:431-700 | The normal form is the value itself if and only if it is canonical: integers in the smallest type that was asked for, generic binaries as such, times within the range and precision of milliseconds |
| Bson.TimeIsCut | Godeps/_workspace/src/labix.org/v2/mgo/bson/encode.go:374-380 | A time comes back as the whole milliseconds at or before it, as far as 64 bits hold these |
| Bson.TimeIsWrapped | Godeps/_workspace/src/labix.org/v2/mgo/bson/encode.go:374-380 | And beyond that with a multiple of 2^64 milliseconds lost |
| Bson.NormalNulFree | Godeps/_workspace/src/labix.org/v2/mgo/bson/decode.go:732-746 | The normal form has NUL bytes in names exactly if the value has |
| Bson.Encoder.AddDoc | Godeps/_workspace/src/labix.org/v2/mgo/bson/encode.go:81-122 | Appends the elements framed by their length, back-patched, and a NUL |
| Bson.Encoder.AddSlice | Godeps/_workspace/src/labix.org/v2/mgo/bson/encode.go:193-226 | Appends an array as the document whose names are the decimal numbers of its items, 0, 1, 2 and on |
| Bson.ItoaIsDecimal | Godeps/_workspace/src/labix.org/v2/mgo/bson/encode.go:53-73 | A number is written in digits that are read back as it from the most significant one on, without a zero in front |
| Bson.ArrayIsNumbered | Godeps/_workspace/src/labix.org/v2/mgo/bson/encode.go:218-228 | The bytes of the items are those of elements under their numbers in decimal |
| Bson.WordItems | Godeps/_workspace/src/labix.org/v2/mgo/bson/encode.go:305-406 | The bytes of doubles, integers of 32 and 64 bits and timestamps, type flag by type flag, as the repository's tests have them |
| Bson.FlagItems | Godeps/_workspace/src/labix.org/v2/mgo/bson/encode.go:305-406 | So of the types that hold one byte or nothing |
| Bson.TimeItems | Godeps/_workspace/src/labix.org/v2/mgo/bson/encode.go:374-380 | So of times, after 1970 and before it |
| Bson.SizedItems | Godeps/_workspace/src/labix.org/v2/mgo/bson/encode.go:305-406 | So of strings, binaries, object ids, regular expressions, code and symbols, whatever bytes they hold |
| Bson.NestedItems | Godeps/_workspace/src/labix.org/v2/mgo/bson/encode.go:200-228 | So of documents and arrays |
| Bson.Encoder.AddElem | Godeps/_workspace/src/labix.org/v2/mgo/bson/encode.go:237-408 | Appends kind, name and value; fails exactly for object ids of a wrong length |
| Bson.Encoder.AddBinary | Godeps/_workspace/src/labix.org/v2/mgo/bson/encode.go:413-424 | Subtype 0x02 has its length twice |
| Bson.Encoder.SetInt32 | Godeps/_workspace/src/labix.org/v2/mgo/bson/encode.go:442-447 | Four bytes at a position are replaced, nothing else |
| Bson.Decoder.ReadDoc | Godeps/_workspace/src/labix.org/v2/mgo/bson/decode.go:396-417 | On the bytes of a document the elements come back in normal form and the cursor is exactly at the end of the back-patched length |
| Bson.Decoder.ReadArray | Godeps/_workspace/src/labix.org/v2/mgo/bson/decode.go:320-357 | The same for an array, with the names skipped |
| Bson.Decoder.ReadElem | Godeps/_workspace/src/labix.org/v2/mgo/bson/decode.go:431-699 | The value of each kind, with the cursor at its end; the cursor never goes back or past the input |
| Bson.Decoder.ReadBinary | Godeps/_workspace/src/labix.org/v2/mgo/bson/decode.go:711-721 | Length, subtype and data, with the second length of subtype 0x02 |
| Bson.Decoder.ReadStr | Godeps/_workspace/src/labix.org/v2/mgo/bson/decode.go:723-730 | A string by its length, without its NUL |
| Bson.Decoder.ReadCStr | Godeps/_workspace/src/labix.org/v2/mgo/bson/decode.go:732-746 | Bytes up to the first NUL |
| Bson.Decoder.ReadInt32 | Godeps/_workspace/src/labix.org/v2/mgo/bson/decode.go:759-765 | A little-endian integer in two's complement |
| GridFS.Upload.Write | Godeps/_workspace/src/labix.org/v2/mgo/gridfs.go:518-563 | Without error: stored and sent chunks followed by the buffer are all bytes written; every chunk sent has exactly the chunk size, and one is sent exactly if a buffer that is not empty gets full or more than a chunk is given; after an error nothing is accepted any more |
| GridFS.Upload.InsertChunk | Godeps/_workspace/src/labix.org/v2/mgo/gridfs.go:565-601 | The chunk is sent under the next number; the bytes of the insertions pending before it are below the limit; an error is never forgotten |
| GridFS.Upload.Close | Godeps/_workspace/src/labix.org/v2/mgo/gridfs.go:489-505 | Without error the store holds exactly the bytes written, cut into chunks of which only the last may be shorter, and the file's length is their number; there is an error exactly if an insertion has been refused |
| GridFS.Download.GetChunk | Godeps/_workspace/src/labix.org/v2/mgo/gridfs.go:683-717 | The chunk asked for, from the prefetch cache or the store, or a fetch that fails; the cache always equals the stored chunk, and the number moves on in any case |
| GridFS.Download.Read | Godeps/_workspace/src/labix.org/v2/mgo/gridfs.go:661-681 | While no fetch has failed since the last seek: exactly the next bytes of the contents, fewer only at their end, which is reported exactly when nothing is left, or if a fetch fails. In any case the bytes are those at the place of the next byte; a failed fetch moves that place on by a chunk and not the offset, so that reading on is right again only after a seek that fetches |
| GridFS.Download.Seek | Godeps/_workspace/src/labix.org/v2/mgo/gridfs.go:622-652 | It fails behind the end, and at the end if that is the end of a full chunk that is not the one at hand, and if the chunk cannot be fetched; otherwise the offset is the target, and reading from there is right; it panics exactly if the target is in the chunk at hand and a failed fetch has left less in the buffer than is to be skipped |
| GridFS.SeekToTheEnd | Godeps/_workspace/src/labix.org/v2/mgo/gridfs.go:622-652 | A file of one full chunk, on which the seek to the end fails |
| GridFS.ReadTheWrongByte | Godeps/_workspace/src/labix.org/v2/mgo/gridfs.go:661-681 | A file of two chunks whose first fetch fails: the read fails, and the next one delivers the second byte as the first |
| GridFS.SeekPanics | Godeps/_workspace/src/labix.org/v2/mgo/gridfs.go:622-652 | A file of one chunk of two bytes whose first fetch fails: a seek to the second byte panics |
| GridFS.StoreAndRead | Godeps/_workspace/src/labix.org/v2/mgo/gridfs.go:489-716 | What is read back from any offset after any writes and a close are the bytes written, unless an insertion or the fetch fails |
| RingQueue.Queue.Push | Godeps/_workspace/src/labix.org/v2/mgo/queue.go:38-49 | Appends to the contents, also when the ring is full or wrapped around |
| RingQueue.Queue.Pop | Godeps/_workspace/src/labix.org/v2/mgo/queue.go:51-64 | Removes the first of the contents, or returns nil |
| RingQueue.Queue.Expand | Godeps/_workspace/src/labix.org/v2/mgo/queue.go:66-91 | A wrapped ring is copied to a larger one with order and contents kept |
| RingQueue.Run | Godeps/_workspace/src/labix.org/v2/mgo/queue.go:29-91 | Any sequence of pushes and pops returns what a sequence with both ends does |
| RingQueue.InOrder | Godeps/_workspace/src/labix.org/v2/mgo/queue.go:29-91 | What has been popped followed by what is left is what has been pushed |
| SocketPool.DoKeeps | Godeps/_workspace/src/labix.org/v2/mgo/server.go:101-144 | Every critical section of acquire, release, kill, recycle, abend and close keeps the invariant, in every interleaving |
| SocketPool.RunInv | Godeps/_workspace/src/labix.org/v2/mgo/socket.go:188-245 | The invariant holds at every point of every run |
| SocketPool.PooledOnce | Godeps/_workspace/src/labix.org/v2/mgo/server.go:200-238 | A socket in the pool is there once, with no references, held by nobody and in the hands of no goroutine |
| SocketPool.OneInitialOwner | Godeps/_workspace/src/labix.org/v2/mgo/server.go:101-144 | Two goroutines never have the same pooled socket to acquire first, and nobody holds it |
| SocketPool.NoPanic | Godeps/_workspace/src/labix.org/v2/mgo/socket.go:188-245 | The panics over references and a missing server are unreachable |
| SocketPool.ReferencesAreHeld | Godeps/_workspace/src/labix.org/v2/mgo/socket.go:210-245 | A held socket's count is the number of references held |
| SocketPool.DoWatches | Godeps/_workspace/src/labix.org/v2/mgo/server.go:181-197 | Every critical section keeps it that a socket that is not dead belongs to the server's list, is on its way into it, or is to be closed by the goroutine that closes the server |
| SocketPool.ClosedIsClosed | Godeps/_workspace/src/labix.org/v2/mgo/server.go:181-197 | Once the server is closed and no goroutine has a new socket or sockets to close in its hands, every socket there has been is dead |
| SocketPool.NothingBegins | Godeps/_workspace/src/labix.org/v2/mgo/server.go:101-144 | On a closed server no goroutine begins to dial or takes a socket from the pool, no socket comes into the list, and it stays closed |
| SocketLimit.CheckSees | Godeps/_workspace/src/labix.org/v2/mgo/server.go:101-144 | The check of the limit lets a socket be taken if and only if the sockets in use and those resting are fewer than the limit and the pooled sockets that are not in the server's list |
| SocketLimit.WithinLimit | Godeps/_workspace/src/labix.org/v2/mgo/server.go:101-144 | In a run with one limit in which never more than x other goroutines are between their check and their registration when one begins to dial, the living sockets are at most the limit and x |
| SocketLimit.OvertakenExactly | Godeps/_workspace/src/labix.org/v2/mgo/server.go:101-144 | The number of sockets in use gets above the limit if and only if a step that takes one is made when the limit is reached already |
| SocketLimit.DialedTogether | Godeps/_workspace/src/labix.org/v2/mgo/server.go:101-144 | A run with limit 1 in which two goroutines pass the check before either has registered its socket: two are in use |
| SocketLimit.StrayMiscounts | Godeps/_workspace/src/labix.org/v2/mgo/server.go:200-206 | A run with limit 1 in which a socket that has died is put back in the pool, so that later two are in use without anybody dialing at the same time |
| SocketLimit.StuckStays | Godeps/_workspace/src/labix.org/v2/mgo/server.go:101-144 | A socket that is killed before it is registered stays in the server's list for ever |
| SocketLimit.KilledTooEarly | Godeps/_workspace/src/labix.org/v2/mgo/server.go:101-144 | A run with limit 1 in which no socket is in use and none can be taken |
| Relay.DoKeeps | listener.go:30-72 | Every step of listener, consumers and recoverer, every retry, hand-over to a waiting consumer, and every crash with a new start, keeps the invariant |
| Relay.RunInv | consumer.go:37-133 | The invariant holds at every point of every run |
| Relay.AcceptedIsKept | listener.go:47-70 | At every point of every run and across crashes, a petition answered with success is neither stored nor has its reply stored if and only if a consumer has removed it and every insertion of its reply has failed |
| Relay.QueuedIsStored | listener.go:47-70 | A queued petition is stored, queued once, and not taken yet |
| Relay.RelayedByOne | consumer.go:78-161 | Within one run all requests for a petition are sent by one consumer, each further one follows an error or a 503, and there are at most as many as the retries and one |
| Relay.SignalledAtTheEnd | consumer.go:37-76 | The end signal comes only when no consumer has a petition in hand |
| Relay.NothingForgotten | recoverer.go:23-40 | While the listener runs, every stored petition that was accepted is queued or taken, those of earlier runs too |
| Relay.RunOrderly | consumer.go:37-133 | At every point of every run the channel holds no more than its capacity, no consumer has ended before it was told to stop, and a reply is inserted only behind a good answer or the last try |
| Relay.CanEnd | consumer.go:37-76 | From every point of every run there is a way on, once stopped, on which all consumers end and the end is signalled |
| Relay.LostWithoutReply | consumer.go:115-131 | A run in which an accepted petition is lost because its reply cannot be inserted and it is removed all the same |
| Cluster.DoKeeps | Godeps/_workspace/src/labix.org/v2/mgo/cluster.go:403-466 | Every step of every goroutine of a round keeps the invariant of seen addresses, pending and added servers, in every interleaving |
| Cluster.DropKeeps | Godeps/_workspace/src/labix.org/v2/mgo/cluster.go:113-123 | So does a session that removes a server at any moment |
| Cluster.HostsKeep | Godeps/_workspace/src/labix.org/v2/mgo/cluster.go:411-466 | What a probed server names is looked at, or still to be spawned |
| Cluster.RunInv | Godeps/_workspace/src/labix.org/v2/mgo/cluster.go:403-472 | The invariant holds at every point of every round |
| Cluster.AtMostOnce | Godeps/_workspace/src/labix.org/v2/mgo/cluster.go:411-466 | Each resolved address is probed at most once and added at most once, and no server object is exchanged for another |
| Cluster.OnlyNamedAreAsked | Godeps/_workspace/src/labix.org/v2/mgo/cluster.go:411-466 | No server is probed that is neither known at the beginning nor named by one found, and in direct mode none that is not known at the beginning |
| Cluster.ThereAtTheEnd | Godeps/_workspace/src/labix.org/v2/mgo/cluster.go:403-490 | Who is among the servers after a round: those added and not removed since; after a round in which nobody was added those reached that were there before, none as a master; and none that could not be reached |
| Cluster.MastersAndNamedAreAdded | Godeps/_workspace/src/labix.org/v2/mgo/cluster.go:411-466 | At the end of a round every address seen has been probed once, and every one probed with success that is a master, or that a probed master names, has been added once, is not among the servers to be discarded, and is there as what it is exactly if no session has removed it |
| Cluster.AddedStays | Godeps/_workspace/src/labix.org/v2/mgo/cluster.go:474-485 | What the round added is still among the servers when it is over, as a master exactly if it is one, if and only if no session has removed it |
| Cluster.StepRank | Godeps/_workspace/src/labix.org/v2/mgo/cluster.go:411-466 | Over finitely many resolved addresses every step lowers a rank |
| Cluster.RoundEnds | Godeps/_workspace/src/labix.org/v2/mgo/cluster.go:403-472 | So every round ends: whatever sessions do meanwhile, its goroutines take at most that many steps |

## Left out

- Flusher.NoPanic: leaves out the panic of rescan over a document whose queue misses the token (Godeps/_workspace/src/labix.org/v2/mgo/txn/flusher.go:472), which can be reached: `LostToken.TokenIsLost`.
- TokensKept.NoTokenLost: is about runs in which what is pulled is settled. The three lemmas about pulls show this of the queues that a runner has seen when it decides what to flush; it is not so of every run, as `LostToken.TokenIsLost` shows, and which transactions have to wait for each other for that is not characterised.
- Runners.CourseIsRun: a runner may take any plan that is in the order of `FlushOrder.Run`; the course of `LostToken.TokenIsLost` takes the one that Tarjan's algorithm gives there.
- Flusher.AtMostOnce: that an applied transaction has had each effect at least once is stated up to a runner that finds the document out of reach (`Decisions.AppliedTookEffect`); that this happens only behind another runner that has applied the same operation depends on the order in which transactions change a document, and is not stated. It is about Assert and Update operations; Insert and Remove, with their stash of documents, have a re-insertion race that the code itself describes.
- Decisions.AppliedAsAsserted: whether the content of a document meets a condition is given once for each document, revision and condition; what documents hold is not part of it.
- Decisions.PresentIsNotMissing: no operation of the model inserts or removes a document.
- Flusher.ReturnedTruth: an applied copy may be ahead of a record that is still applying, as apply ignores the error of its last update.
- Pulling.PullsOnlyHandled: is about the plan of one `run`; the queues of other runners are covered by `Flusher` alone.
- YamlParser.Events: marks of events, comments and the reader's characters are not part of it; a token source that fails is a token sequence that ends.
- YamlAccepted.Accepted: is about tokens that have no other fields set than their types use, as those of the scanner.
- YamlRoundTrip.RoundTrip: how a content is written and read back is a parameter, and so is the room it takes (`DoubleQuoted.RoundTrip` is about one style of scalar); that characters are recognised as the lexemes they were written for is not shown. That a simple key takes no more room than the scanner grants is a hypothesis, `KeysFit`: the emitter allows 128 bytes, which are at most 512 characters with escapes.
- YamlComposer.Compose: composes one document, as the decoder asks for one.
- YamlDecoder.Decode: decodes into an empty interface; struct fields, setters and typed maps, which need reflection, are not part of it, nor is the resolution of plain scalars, which is a parameter.
- YamlEmitter.EmitStream: the characters of a content are a parameter that may depend on where it is written, and the room they take is another; that the two agree is stated of indicators, blanks and line breaks alone. Whether a scalar is open-ended is left open, so that a mark at the end of the stream may be written or not.
- YamlEmitter.Emitter.EmitDocumentStart: has no version and tag directives, as the encoder gives none.
- YamlEmitter.Emitter.EmitStreamStart: writes UTF-8 without a byte order mark.
- YamlEmitter.Emitter.CheckSimpleKey: the length and the lines of a content are a parameter.
- YamlScanner.Scan: takes lexemes, each with its marks, in place of characters; how they are recognized is modelled for double-quoted scalars alone.
- YamlScanner.PanicsExactly: is about lexemes that stand on the line on which the one before ends, unless line breaks lead to them, as those of a text do.
- DoubleQuoted.RoundTrip: single-quoted, plain and block scalars are not part of it; the reader's buffer is the whole input.
- Bson.RoundTrip: is about the generic document types; maps and structs as targets, Raw, Getter and Setter are not part of it, nor is JavaScript with a scope (0x0F).
- Bson.Decoder.ReadDoc: for corrupt bytes only says that the cursor stays in the input and moves on.
- GridFS.Download.GetChunk: a fetch either gives the stored chunk or fails, as a set of numbers of fetches says.
- GridFS.Download.Seek: takes the target as an offset from the start; the sum with the present offset or the length, negative targets, and seeks while writing are not part of it.
- GridFS.Upload.Close: which insertions the store refuses is given as a set of their numbers; the MD5 sum, and the clean-up of chunks after an error, are not part of it.
- SocketPool.DoKeeps: timeouts, deadlines and the reply functions of a socket are not part of it.
- Relay.AcceptedIsKept: an insertion that fails is a request that is never accepted; a store that loses what it has confirmed is not part of it.
- Cluster.AddedStays: a server that a session closes and removes between its look-up and its addition is added back closed; whether a server is closed is not part of the model.
- Cluster.RoundEnds: time-outs of a probe and the loop over rounds are not part of it; the network answers the same for an address throughout a round.
- UTF-16 in reader and writer: the repository's code departs from the format there, and nothing is claimed.
- Runner.Run, Resume, ChangeLog and PurgeMissing of mgo/txn: they only load transactions and call the flusher.
- Sorted server lists, choice of a server by tags and ping times, sessions, iterators, wire protocol, authentication, statistics.
- URL parsing, UUIDs, header clean-up and the JSON of replies: small and without state.
