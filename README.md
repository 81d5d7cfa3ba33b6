# DBGP client session layer (vdebug `dbgp` plugin), modelled in Dafny

This project models the IDE side of a DBGP debugger session as the test suite
`tests/test_dbgp_interface.py` pins it down:

- **Handshake.** The engine speaks first with an `<init>` packet (section 5.2 of
  "DBGP – A common debugger protocol"). Opening a session receives exactly that one
  message. The root element must be `init`, or the session fails with a
  `ResponseError` carrying "Invalid XML response from debugger". The session copies
  `language`, `interface_version` and `idekey` into its `language`, `version` and
  `idekey` fields. If the caller supplied an IDE key that differs from the packet's,
  the session fails with `WrongIDEKeyException`.
- **Commands.** Each command takes the next transaction id from a per-session counter
  that starts at 0. The handshake does not use an id. The command sends one line
  `<verb> [-<flag> <value>]... -i <id>` (section 6.3 of DBGP) and receives one reply.
- **Replies.** A standard `<response>` is shown (Python `str`) as its `status`
  attribute. A `feature_get` reply (section 7.2 of DBGP) is shown as its CDATA body,
  and `is_supported()` is 1 exactly when `supported="1"`.

XML is abstracted: a message is a `Wire.Document` holding the local name of the root
element, its attribute map and its body text. The socket and the test's mock
connection become `Session.Connection`: a queue of inbound documents and a log of
sent lines.

Modules:
- `Wire`: the document record, the error outcomes and `Result`.
- `Decimal`: how an id is written (`str(n)`) and read back.
- `CommandLine`: the command line and its parser.
- `Response`: reply interpretation.
- `Handshake`: validation of the `<init>` packet.
- `Session`: the `Connection` and `Interface` classes. It also holds the pure model
  of one exchange (`Dispatch`) and of a run of exchanges (`Trace`). Every
  `Interface` command is proved against `Dispatch`.
- `Scenarios`: each test of the suite, replayed through the class contracts.

The model does not check a reply's `transaction_id` against the id sent. The
`feature_get` test (tests/test_dbgp_interface.py:136-147) answers the first command,
whose id is 1, with `transaction_id="2"`, and expects success.

A standard reply is accepted whatever it holds. The suite's mock returns the `<init>`
packet again for every receive (tests/test_dbgp_interface.py:27), so `status()` at
line 42 gets a reply without `status` and must still return.

Where the tests are silent, the model makes these choices:
- A handshake that lacks `language`, `interface_version` or `idekey` is a `ResponseError`.
- The string form of a standard reply without `status` fails with a `ResponseError`.
- A feature reply without `feature_name`, or whose `supported` is not `0`/`1`, is a
  `ResponseError`.
- The `-n <name>` argument of `feature_get` goes before `-i <id>`. Section 6.3 of
  DBGP allows any order of the argument flags.
- "No expected IDE key" is `None`.
- Receiving from an exhausted connection yields `Disconnected`.

## Model

| member | source | states |
|---|---|---|
| Decimal.NatToDecimal | tests/test_dbgp_interface.py:43 | the id is written as `str()` writes it: digits only, no leading zero |
| Decimal.DecimalRoundTrip | tests/test_dbgp_interface.py:43 | reading back a written id gives the same id |
| Decimal.DecimalOfParse | tests/test_dbgp_interface.py:43 | every canonical numeral is the written form of its value, so writing and reading are inverse |
| Decimal.DecimalInjective | tests/test_dbgp_interface.py:43 | two different ids are never written alike |
| CommandLine.SplitJoin | tests/test_dbgp_interface.py:43 | space-free tokens joined by spaces split back into the same tokens |
| CommandLine.FormatRoundTrip | tests/test_dbgp_interface.py:38-43 | the engine recovers the verb, the arguments and the transaction id from every line sent |
| CommandLine.FormatInjective | tests/test_dbgp_interface.py:38-43 | distinct commands or distinct ids never give the same line |
| CommandLine.Format | tests/test_dbgp_interface.py:43 | every line sent starts with the verb and ends with ` -i <id>` |
| CommandLine.PlainCommandLine | tests/test_dbgp_interface.py:43 | a command without arguments is sent as `<verb> -i <id>` |
| CommandLine.OneArgCommandLine | tests/test_dbgp_interface.py:145 | an argument such as `-n encoding` goes between the verb and `-i <id>` |
| Response.ParseStandard | tests/test_dbgp_interface.py:45-69 | every document is accepted as a standard reply; its string form is its `status` whatever the value, and is a ResponseError only when `status` is absent |
| Response.Display | tests/test_dbgp_interface.py:56 | `str()` of a standard reply with `status` is that status; `str()` succeeds exactly for a feature reply or a standard reply with `status`; a feature reply shows its body; the failure is a ResponseError on the reply's document |
| Response.ParseFeature | tests/test_dbgp_interface.py:136-147 | a feature reply is accepted exactly when it has `feature_name` and a 0/1 `supported`; its string form is the body, and `is_supported()` is 1 exactly when `supported="1"` |
| Response.IsSupported | tests/test_dbgp_interface.py:147 | `is_supported()` is 0 or 1 |
| Response.AttributesPreserved | tests/test_dbgp_interface.py:49-52 | the parsed reply keeps the reply element's attributes |
| Handshake.ParseInit | tests/test_dbgp_interface.py:12-36 | the handshake is accepted exactly when the root is `init`, the identity attributes are present and any expected key matches; the identity is copied from `language`, `interface_version`, `idekey`; a wrong root is ResponseError and a key mismatch is WrongIdeKey |
| Handshake.ReceiveHandshake | tests/test_dbgp_interface.py:24-29 | opening fails with Disconnected exactly when no message arrives; otherwise the outcome is the check of the first message |
| Handshake.AnyKeyWithoutExpectation | tests/test_dbgp_interface.py:24-29 | with no expected key, every well-formed handshake is accepted whatever its `idekey` |
| Handshake.ExpectationOnlyFilters | tests/test_dbgp_interface.py:175-180 | an expected key only accepts or refuses; an accepted session has exactly that key |
| Session.Connection.SendMsg | tests/test_dbgp_interface.py:41-43 | a send appends one line to the log and leaves the inbound queue alone |
| Session.Connection.RecvMsg | tests/test_dbgp_interface.py:25-28 | a receive pops the oldest inbound message, or reports disconnection when there is none |
| Session.Dispatch | tests/test_dbgp_interface.py:38-69 | one exchange raises the counter by one, appends exactly the command's line tagged with the new id, consumes exactly one inbound message as the reply, and reports Disconnected exactly when none is left, the inbox then staying empty |
| Session.TraceSends | tests/test_dbgp_interface.py:38-43 | over a run of commands, the counter rises by one per command and the k-th command's line carries start id + 1 + k; earlier lines are untouched |
| Session.TraceReplies | tests/test_dbgp_interface.py:45-69 | each command consumes exactly the next inbound message as its reply, in order; after the last one, commands report disconnection |
| Session.SessionIds | tests/test_dbgp_interface.py:38-43 | after the handshake, the k-th line sent reads back as the k-th command with id k + 1: ids start at 1 and rise by one per command of any kind |
| Session.SessionLinesDistinct | tests/test_dbgp_interface.py:38-43 | no two lines of a session are equal, even for repeated commands |
| Session.Interface.FromIdentity | tests/test_dbgp_interface.py:31-36 | a new session holds the handshake's identity and a counter at 0 |
| Session.Interface.Open | tests/test_dbgp_interface.py:24-29 | opening receives one message and sends nothing; it succeeds exactly when the handshake is accepted, and the new session carries the handshake's identity with no id used |
| Session.Interface.SendCmd | tests/test_dbgp_interface.py:38-43 | a command increments the counter, sends its line tagged with the new id and interprets one reply, as `Dispatch` says |
| Session.Interface.Status | tests/test_dbgp_interface.py:38-56 | `status` is one `Dispatch` of `status` expecting a standard reply |
| Session.Interface.Run | tests/test_dbgp_interface.py:58-69 | `run` is one `Dispatch` of `run` expecting a standard reply |
| Session.Interface.StepInto | tests/test_dbgp_interface.py:71-82 | `step_into` is the same uniform dispatch (the test named after it calls `run()`) |
| Session.Interface.StepOver | tests/test_dbgp_interface.py:84-95 | `step_over` is the same uniform dispatch (the test named after it calls `run()`) |
| Session.Interface.StepOut | tests/test_dbgp_interface.py:97-108 | `step_out` is the same uniform dispatch (the test named after it calls `run()`) |
| Session.Interface.Stop | tests/test_dbgp_interface.py:110-121 | `stop` is the same uniform dispatch (the test named after it calls `run()`) |
| Session.Interface.Detach | tests/test_dbgp_interface.py:123-134 | `detach` is the same uniform dispatch (the test named after it calls `run()`) |
| Session.Interface.FeatureGet | tests/test_dbgp_interface.py:136-147 | `feature_get` is one `Dispatch` of `feature_get -n <name>` expecting a feature reply |
| Scenarios.InitMsgParsed | tests/test_dbgp_interface.py:31-36 | over the suite's handshake the session has language "PHP", version "1.0", IDE key "netbeans-xdebug" |
| Scenarios.StatusSendsTransId | tests/test_dbgp_interface.py:24-43 | with the mock's input (the `<init>` packet received again as the reply), the first command sends exactly one line, `status -i 1`, and `status()` returns |
| Scenarios.StatusRetval | tests/test_dbgp_interface.py:45-56 | `status()` over a `status="starting"` reply shows "starting" |
| Scenarios.RunRetval | tests/test_dbgp_interface.py:58-134 | `run()` shows the reply's status unchanged for every status, among them running, break, stopping and stopped |
| Scenarios.FeatureGetRetval | tests/test_dbgp_interface.py:136-147 | `feature_get('encoding')` shows "iso-8859-1" and `is_supported()` is 1 |
| Scenarios.InvalidResponseRaisesError | tests/test_dbgp_interface.py:163-173 | a handshake rooted at `invalid` fails with ResponseError "Invalid XML response from debugger" |
| Scenarios.WrongIdekeyRaisesException | tests/test_dbgp_interface.py:175-180 | expecting "other-ide-key" against "netbeans-xdebug" fails with WrongIdeKey |

## Left out

- XML text parsing is not modelled. This covers the XML declaration, the `iso-8859-1`
  encoding, the namespaces and CDATA lexing. The XML reader is a library; messages
  arrive as already-parsed documents.
- The socket transport, its framing and the mock machinery are not modelled. They are
  replaced by the inbound queue and outbound log of `Session.Connection`.
- `isconnected` and reopening a closed connection are not modelled. The tests only stub
  them and never assert on them.
- The nested `engine`/`author`/`url`/`copyright` elements of the handshake are not
  modelled, because nothing reads them. The `fileuri` and `appid` attributes are kept
  in the document but never read.
- Checking the reply's `transaction_id` against the id sent is not modelled. The tests
  show it is not checked.
- Session.Interface.StepInto, StepOver, StepOut, Stop, Detach: their wire verbs come
  from the DBGP command names, because the tests named after them call `run()` and pin
  no line.
- The code of `dbgp/interface.py` and `dbgp/response.py` is not followed line by line.
  `Interface` and `Response` are modelled by the behaviour the tests assert, with the
  choices listed above where the tests are silent.
- The determinism of reply parsing needs no lemma. Parsing is a function, so the same
  document always gives the same reply.
