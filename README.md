# TLS record driver of the STM32F429 TCP client

This project models the record driver of `stm32f429/src/bin/tcp_client_alloc.rs`.
That is the function `process_state`, which drives the low-level rustls client
connection over an embassy TCP socket. It also models the request builder
`http_request`.

The driver owns two buffers:

- the incoming buffer, a fixed `[u8; 16384]` array with the count `incoming_used`;
- the outgoing buffer, a growable `Vec<u8>` with the count `outgoing_used`.

On each turn the driver calls `process_tls_records` on `incoming_tls[..incoming_used]`.
The engine answers with a `discard` count and a state, and the driver acts on the state:

- `MustEncodeTlsData`: encode into `outgoing_tls[outgoing_used..]`. On
  `InsufficientSize { required_size }`, resize the vector to
  `outgoing_used + required_size` with zero bytes and retry once. Then unwrap
  the result and add the bytes written to `outgoing_used`.
- `MustTransmitTlsData`: `write_all(&outgoing_tls[..outgoing_used])` with the
  result ignored, then `outgoing_used = 0`, then `done()`.
- `NeedsMoreTlsData`: one `read` into `incoming_tls[incoming_used..]`, unwrapped.
  The bytes read are added to `incoming_used`.
- any other state: return `Ok(())`.

After acting, a non-zero `discard` is checked with `assert!(discard <= incoming_used)`.
Then `copy_within(discard..incoming_used, 0)` moves the unread bytes to the front,
and `incoming_used` is reduced by `discard`.

Files:

- `record_spec.dfy` (module `RecordSpec`) describes the driver on values. A `Conn`
  holds both buffers, both counts, the engine and the socket. There is one
  function per directive (`Encode`, `Transmit`, `ReadMore`), plus `Discard`.
  `Step` is one turn of the loop and `Run` is the whole loop.
- `record_driver.dfy` (module `RecordDriver`) is the imperative driver. Its class
  `Driver` keeps the incoming buffer as an `array<byte>` of 16384 bytes.
  `ReadTlsData` fills the array in place and `DiscardRecords` shifts it in place,
  each with a loop. The outgoing `Vec` is a `seq<byte>` field that is reassigned.
  Each method is proved equal to its `RecordSpec` function, and `ProcessState`
  is proved equal to `Run`.
- `record_properties.dfy` (module `RecordProperties`) proves what the loop keeps
  true. No incoming byte is lost or duplicated (`RunConserves`). No outgoing
  byte is lost or duplicated while writes succeed (`RunAccounts`). It also proves
  grow-and-retry, and one scenario for each main path.
- `http_request.dfy` (module `HttpRequest`) is the request builder. It has a
  loop over the five lines and a bounded `push_str`.

The engine and the socket are oracles, because their code is not part of this model:

- The engine is a list of replies to `process_tls_records`. Each reply is a
  status, or an error that the driver unwraps. The engine also logs every
  slice it is shown and counts the `done()` calls.
- A `MustEncodeTlsData` state carries the engine's answers to the first
  `encode` and to the retry. These answers may be arbitrary, so the model also
  covers an engine whose size hint is wrong.
- The socket is a list of replies for reads, a list of replies for writes, and
  logs of the bytes delivered and the bytes sent.

How the code handles failures and edge cases (the model follows the code in each case):

- Failures are not returned as classified errors. Every failure panics: the
  `unwrap` of a `process_tls_records` error, of a second encode failure, of
  `AlreadyEncoded` or of a read error, and the `assert!` on the discard count.
  The `Error` enum of the file is never built. The model ends such a run with
  `Panicked(reason)`.
- A failed write is not fatal. Its result is dropped, the pending count is
  reset and `done()` is called anyway (`FailedWriteLosesBytes`). There is no
  flush.
- A full incoming buffer is not checked. The code passes `read` an empty slice
  and adds whatever it returns. The model's scripted socket returns 0 bytes for
  an empty slice, so the loop goes on (`FullBufferReadsNothing`).
- Every unhandled state ends the loop with `Ok(())`, with no discard applied.
- A request that overflows its 1024 bytes is not an error. Each push that does
  not fit is dropped (`OverlongServerName`).

## Model

| member | source | states |
|---|---|---|
| `RecordSpec.Resize` | stm32f429/src/bin/tcp_client_alloc.rs:181-182 | `resize(new_len, 0)` gives exactly `new_len` bytes: the old bytes that fit are kept and the new ones are zero |
| `RecordSpec.Overwrite` | stm32f429/src/bin/tcp_client_alloc.rs:172 | writing into the slice that starts at an offset changes only that slice, byte for byte |
| `RecordSpec.Compact` | stm32f429/src/bin/tcp_client_alloc.rs:241 | `copy_within(d..used, 0)`: new byte `i < used-d` is old byte `d+i`, bytes from `used-d` on are untouched, and the length is the same |
| `RecordSpec.Show` | stm32f429/src/bin/tcp_client_alloc.rs:164-166 | each `process_tls_records` call uses up the engine's first reply, leaving the rest in order, and adds the slice it is shown to the end of the engine's log |
| `RecordSpec.Answer` | stm32f429/src/bin/tcp_client_alloc.rs:172-189 | an `encode` answer never writes past its slice: a record that fits comes back unchanged, a record that does not fit becomes `InsufficientSize` of its length, and errors pass through |
| `RecordSpec.SocketRead` | stm32f429/src/bin/tcp_client_alloc.rs:224-226 | a read delivers exactly the smaller of the slice length and what arrived, as a prefix of it; the rest stays first for the next read, and a fully read arrival is used up; with nothing scripted it delivers 0 bytes and changes nothing; it fails exactly on a scripted read error |
| `RecordSpec.SocketWriteAll` | stm32f429/src/bin/tcp_client_alloc.rs:199-215 | `write_all` sends a prefix of the data in order, and all of it when the write succeeds |
| `RecordSpec.Emit` | stm32f429/src/bin/tcp_client_alloc.rs:172-194 | a successful encode places the record right after the pending bytes, keeps every other byte and the length, and grows `outgoing_used` by the record's length |
| `RecordSpec.Encode` | stm32f429/src/bin/tcp_client_alloc.rs:170-196 | if the first encode fits, the count grows by the record's length; on `InsufficientSize(k)` the buffer becomes exactly `outgoing_used + k` long, the pending bytes are kept, the bytes after the retried record are old or zero, and the count grows by the retried record's actual length; an error after the retry, or `AlreadyEncoded`, panics; the incoming side, engine and socket are unchanged |
| `RecordSpec.Transmit` | stm32f429/src/bin/tcp_client_alloc.rs:197-220 | exactly `outgoing_tls[..outgoing_used]` is handed to `write_all`; then, whatever the write did, the count is 0 and `done()` is counted once; the buffer bytes and incoming side are unchanged |
| `RecordSpec.ReadMore` | stm32f429/src/bin/tcp_client_alloc.rs:221-229 | the read goes into the free tail `incoming_tls[incoming_used..]`: the socket ends as the socket's own read of that many bytes leaves it, the count grows by exactly the bytes it delivers and stays at most 16384, the bytes in use are unchanged and the delivered bytes follow them; a read error panics and changes nothing |
| `RecordSpec.Discard` | stm32f429/src/bin/tcp_client_alloc.rs:236-243 | `d == 0` changes nothing; `d > incoming_used` fails the assertion; otherwise the new `incoming_tls[..used-d]` is the old `incoming_tls[d..used]` and the count drops by exactly `d` |
| `RecordSpec.Act` | stm32f429/src/bin/tcp_client_alloc.rs:169-235 | the dispatch returns `Ok(())` exactly for an unhandled state, with the state unchanged; no arm touches the engine's replies or log |
| `RecordSpec.Step` | stm32f429/src/bin/tcp_client_alloc.rs:163-244 | each turn shows the engine exactly `incoming_tls[..incoming_used]` and uses one reply; the loop finishes with `Ok(())` exactly when the reply is an unhandled state; the buffer invariants hold after the turn |
| `RecordSpec.Run` | stm32f429/src/bin/tcp_client_alloc.rs:153-247 | the whole loop keeps `incoming_used <= 16384` and `outgoing_used <= outgoing_tls.len()` |
| `RecordDriver.Driver.constructor` | stm32f429/src/bin/tcp_client_alloc.rs:115-119 | the incoming array is 16384 zero bytes, the outgoing vector is empty, and both counts are 0 |
| `RecordDriver.Driver.EncodeTlsData` | stm32f429/src/bin/tcp_client_alloc.rs:170-196 | the in-place encode, grow and retry leaves exactly the state `Encode` describes, and reports the error that panics |
| `RecordDriver.Driver.TransmitTlsData` | stm32f429/src/bin/tcp_client_alloc.rs:197-220 | the transmit leaves exactly the state `Transmit` describes |
| `RecordDriver.Driver.ReadTlsData` | stm32f429/src/bin/tcp_client_alloc.rs:221-229 | the loop that reads into the array's tail leaves exactly the state `ReadMore` describes |
| `RecordDriver.Driver.DiscardRecords` | stm32f429/src/bin/tcp_client_alloc.rs:236-243 | the in-place forward copy leaves the array and count exactly as `Discard` describes, and reports the failed assertion |
| `RecordDriver.Driver.ProcessState` | stm32f429/src/bin/tcp_client_alloc.rs:153-247 | the driver loop returns the outcome and final state of `Run` |
| `RecordProperties.DiscardConserves` | stm32f429/src/bin/tcp_client_alloc.rs:238-243 | compaction loses and duplicates no byte: the consumed bytes and the bytes in use still spell out the received stream |
| `RecordProperties.ReadMoreConserves` | stm32f429/src/bin/tcp_client_alloc.rs:224-228 | appending a read loses and duplicates no byte of the received stream |
| `RecordProperties.StepDiscards` | stm32f429/src/bin/tcp_client_alloc.rs:221-243 | after a handled state the `discard` count is taken from the bytes in use (the old ones followed by any just read): the turn goes on only if it fits, the bytes after it move to the front and the count drops by it, the first `discard` bytes join the consumed stream, and a count that does not fit stops the turn |
| `RecordProperties.StepConserves` | stm32f429/src/bin/tcp_client_alloc.rs:163-244 | one turn keeps the received stream equal to the consumed bytes followed by the bytes in use |
| `RecordProperties.RunConserves` | stm32f429/src/bin/tcp_client_alloc.rs:162-246 | over the whole loop, every byte the socket delivers is either consumed by the engine or still in use, once and in order |
| `RecordProperties.StepShowsUnconsumedStream` | stm32f429/src/bin/tcp_client_alloc.rs:164-166 | the engine is shown exactly the part of the received stream it has not consumed |
| `RecordProperties.EncodeAccounts` | stm32f429/src/bin/tcp_client_alloc.rs:170-194 | an encode, whether it grows, retries or panics, keeps the bytes sent followed by the bytes pending equal to the bytes encoded |
| `RecordProperties.TransmitAccounts` | stm32f429/src/bin/tcp_client_alloc.rs:197-219 | a write that goes out in full moves exactly the pending bytes to the sent stream, so the accounting still holds |
| `RecordProperties.StepAccounts` | stm32f429/src/bin/tcp_client_alloc.rs:170-219 | while writes succeed, one turn keeps the bytes sent followed by the bytes pending equal to the bytes encoded |
| `RecordProperties.RunAccounts` | stm32f429/src/bin/tcp_client_alloc.rs:162-246 | while writes succeed, over the whole loop every encoded byte is sent once and in order, or is still pending |
| `RecordProperties.FailedWriteLosesBytes` | stm32f429/src/bin/tcp_client_alloc.rs:199-219 | a partly failed write still resets the count and calls `done()`, so the bytes not written are lost |
| `RecordProperties.GrowThenRetry` | stm32f429/src/bin/tcp_client_alloc.rs:178-189 | after `InsufficientSize(k)` and a retried record, the buffer is the pending bytes, the record, and the rest of the resized vector; it is exactly `outgoing_used + k` long, also when a small hint truncates it; the count grows by the record's length, not by `k` |
| `RecordProperties.GrowFillsZeros` | stm32f429/src/bin/tcp_client_alloc.rs:181-186 | growing a full buffer leaves the old bytes, then the record, then zero bytes |
| `RecordProperties.FullBufferReadsNothing` | stm32f429/src/bin/tcp_client_alloc.rs:224-228 | with 16384 bytes in use, a read appends nothing and the count stays at 16384 |
| `RecordProperties.HelloSent` | stm32f429/src/bin/tcp_client_alloc.rs:170-219 | encoding a hello into an empty vector (grow and retry) and transmitting it leaves both counts 0, the socket having sent exactly the hello, the engine shown two empty slices and one `done()` |
| `RecordProperties.ReplyArrives` | stm32f429/src/bin/tcp_client_alloc.rs:221-246 | reading the server's reply into an empty buffer and stopping on the next state ends `Ok(())`, with the reply received in full and the engine shown the empty buffer and then exactly the reply |
| `RecordProperties.HappyPath` | stm32f429/src/bin/tcp_client_alloc.rs:162-246 | encode (with a grow), transmit, read and stop: the run ends `Ok(())`, the socket sends exactly the hello, the engine sees three empty slices and then exactly the reply, and `done()` is called once |
| `RecordProperties.ReadThenConsume` | stm32f429/src/bin/tcp_client_alloc.rs:163-244 | a read of the server's reply followed by a transmit that discards all of it ends in `Ok(())`, with the reply consumed, an empty buffer, the engine shown the empty buffer, the reply, then the empty buffer, and one `done()` |
| `RecordProperties.DoubleEncodeStops` | stm32f429/src/bin/tcp_client_alloc.rs:191-194 | `AlreadyEncoded` panics at once, with no socket I/O and the outgoing buffer unchanged |
| `HttpRequest.RequestLines` | stm32f429/src/bin/tcp_client_alloc.rs:252-258 | five lines, the request line first and the empty line last; joined with CRLF they take exactly `|server_name| + 72` characters |
| `HttpRequest.PushStr` | stm32f429/src/bin/tcp_client_alloc.rs:262-263 | a push appends all of its text or, when the text would overflow the 1024 bytes, nothing |
| `HttpRequest.Build` | stm32f429/src/bin/tcp_client_alloc.rs:260-264 | whatever the lines, the built request stays within 1024 bytes |
| `HttpRequest.HttpRequest` | stm32f429/src/bin/tcp_client_alloc.rs:249-267 | the loop builds the pushes in order; for a server name of at most 952 characters the result is the request line, the Host, Connection and Accept-Encoding headers, each ending in CRLF, and a final CRLF |
| `HttpRequest.BuildFits` | stm32f429/src/bin/tcp_client_alloc.rs:260-264 | when the CRLF-joined lines fit in 1024 bytes, the bounded build equals that joined text |
| `HttpRequest.RequestJoin` | stm32f429/src/bin/tcp_client_alloc.rs:250-258 | for any server name, the five lines joined with CRLF are the request line, the Host, Connection and Accept-Encoding headers, each ending in CRLF, then the final CRLF |
| `HttpRequest.RequestText` | stm32f429/src/bin/tcp_client_alloc.rs:250-258 | for a server name of at most 952 characters, the request is the four lines in order, each ending in CRLF, then the empty line; so it ends in CRLF CRLF |
| `HttpRequest.OverlongServerName` | stm32f429/src/bin/tcp_client_alloc.rs:252-264 | for a server name longer than 1002 characters, the Host push is dropped but its CRLF is kept, so the head ends right after the request line |

## Left out

- `main` (lines 55-147) is not part of this model. It covers board, clock and Ethernet set-up, the network task, heap set-up, the NTP call, the PEM certificates and root store, the client configuration, socket connect and keep-alive. Only the initial buffers (lines 115-119) are modelled, by the constructor.
- The rustls engine's internals (`LlClientConnection::new`, `process_tls_records`, `encode`, `done`, the crypto and time providers) are not part of this model. They are replaced by scripted replies. This includes the engine decrypting records in place in the `&mut` incoming slice: the model's engine never changes the buffer.
- The embassy socket is replaced by scripted replies. When its script runs out, a read returns 0 bytes and a write succeeds. `set_keep_alive`, timeouts and the `block_on` executor are not modelled.
- A real `read` that waits is not modelled. The model's socket answers at once, and an empty slice or an empty script reads 0 bytes. Whether embassy's `TcpSocket::read` returns 0 or waits in these cases is library behaviour outside this file.
- RecordSpec.SocketWriteAll: a transmit with `outgoing_used == 0` still uses up one scripted write reply. In the source, `write_all` on an empty slice never reaches the socket; nothing is sent either way.
- The `wait` and `net_task` tasks and the defmt logging (`info!`, `dbg!`, `warn!`) have no effect on the buffers and are left out.
- RecordDriver.Driver.ProcessState: the source loop has no bound. In the model it stops with `OutOfReplies` when the engine's list of replies is used up.
- RecordSpec.Answer: an `encode` answer with a record longer than its slice is read as `InsufficientSize` of that record's length. The model does not cover an engine that writes past its slice.
- `usize` arithmetic is unbounded in the model. The overflow of `outgoing_used + required_size` is not modelled.
- HttpRequest.HttpRequest: lengths are counted in characters. A non-ASCII server name would take more UTF-8 bytes of the 1024.
- The `num_bytes` hint of `NeedsMoreTlsData` is carried but not used, as in the source.
