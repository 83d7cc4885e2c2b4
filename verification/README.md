# Mailbox routing and state-gated files, in Dafny

This project models two small components of a Rust teaching repository and proves what they promise.

- **constellation** (`constellation.dfy`, module `Constellation`). A `GroundStation` posts `Message`s into a shared `Mailbox`. A `CubeSat` is a copyable id token. It asks the mailbox for the first pending message addressed to its id. That message is removed and handed over, or `None` comes back. The mailbox is a class holding `messages: seq<Message>`. `Post` appends to it. `Deliver` is the source's `for` loop with an early return, and its invariant is "no message before `i` is addressed to the recipient". It is proved to compute `Route`, a recursive reference definition of one delivery. The properties of delivery are lemmas about `Route`.
- **files** (`files.dfy`, module `Files`). A `File` has a `name`, a `FileState` (`Open` or `Closed`) and a private byte buffer. `Read` appends the whole buffer to the caller's byte vector (`ByteVec`, standing for `Vec<u8>`) and returns the byte count. It refuses with an error when the file is not open. `OpenFile` and `CloseFile` take a file, set its state and hand it back wrapped in `Ok`.

Ids (`u64`) are the subset type `U64` (0 ≤ id < 2^64). Bytes (`u8`) are the subset type `Byte` (0..255). `usize` counts are `nat`.

## Model

| member | source | states |
|---|---|---|
| `Constellation.Route` | constellation/src/main.rs:55-63 | one delivery returns `None` exactly when no pending message targets the id, and then the rest is the whole mailbox; on a hit the message targets the id and the rest is one shorter; no message is lost or invented (multiset of input = rest plus the delivered one) |
| `Constellation.RouteAt` | constellation/src/main.rs:56-59 | when index `i` holds the earliest message for the id, delivery returns exactly `s[i]` and leaves `s[..i] + s[i+1..]`, so the remaining messages keep their relative order |
| `Constellation.RouteSkips` | constellation/src/main.rs:56-62 | messages for other recipients at the front are passed over and stay in front, unchanged and in order |
| `Constellation.PostThenDeliver` | constellation/src/main.rs:51-63 | if nothing pending targets `m.to`, posting `m` and then delivering for `m.to` returns `m` and restores the original contents |
| `Constellation.SkipThenHit` | constellation/src/main.rs:56-59 | when nothing before `m` targets `m.to`, delivery for `m.to` returns `m` and leaves the messages before and after it in order |
| `Constellation.FifoPerRecipient` | constellation/src/main.rs:51-63 | two messages posted to the same id in order, with any messages for other ids posted between them, are delivered first-posted first, then the second, and a third delivery yields `None` with the mailbox unchanged |
| `Constellation.Mailbox.constructor` | constellation/src/main.rs:46-48 | a mailbox holds exactly the messages it is built with |
| `Constellation.Mailbox.Post` | constellation/src/main.rs:51-53 | the message is appended after every stored message; earlier messages keep position and value |
| `Constellation.Mailbox.Deliver` | constellation/src/main.rs:55-63 | the returned option and the new contents are exactly `Route` of the old contents for the recipient's id |
| `Constellation.CubeSat.Recv` | constellation/src/main.rs:10-12 | receiving is delivery from the same mailbox for the satellite's own id |
| `Constellation.GroundStation.Connect` | constellation/src/main.rs:31-33 | the satellite handle carries exactly the requested id |
| `Constellation.GroundStation.Send` | constellation/src/main.rs:35-37 | sending appends the message to the mailbox exactly as `Post` does, and the station is not changed |
| `Constellation.GroundStation.constructor` | constellation/src/main.rs:26-28 | a station holds the radio frequency it is built with, as the struct literal at line 112 does |
| `Constellation.HelloRound` | constellation/src/main.rs:111-129 | "hello" posted to ids 1, 2, 3 through an empty mailbox is received as `Some` by satellites 1, 2, 3 in turn, so the driver's unwraps succeed; the member adds one final receive for id 1, which the driver does not do, and that receive yields `None` |
| `Files.ByteVec.constructor` | files/src/main.rs:106 | the caller's byte vector holds exactly the bytes it is built with (the driver builds it empty) |
| `Files.File.New` | files/src/main.rs:41-47 | a new file has the given name, state `Closed` and no data |
| `Files.File.NewWithData` | files/src/main.rs:50-54 | a file built with data has the given name, state `Closed` and exactly the given bytes |
| `Files.File.Len` | files/src/main.rs:57-59 | the length is the number of data bytes |
| `Files.File.IsEmpty` | files/src/main.rs:62-64 | a file is empty exactly when its length is zero |
| `Files.File.Name` | files/src/main.rs:67-69 | the name query returns the file's name |
| `Files.File.Read` | files/src/main.rs:79-91 | a file that is not open yields `Err` and the vector is unchanged; an open file yields `Ok(len)` and the vector becomes its old contents followed by exactly the file's data; the file never changes |
| `Files.OpenFile` | files/src/main.rs:94-97 | opening always succeeds with the same file, now `Open`, name and data unchanged |
| `Files.CloseFile` | files/src/main.rs:99-102 | closing always succeeds with the same file, now `Closed`, name and data unchanged |
| `Files.OpenThenRead` | files/src/main.rs:79-97 | opening a file with data `D` and reading into a vector holding `p` returns `Ok(len(D))` and leaves `p + D` |
| `Files.ReadBeforeOpen` | files/src/main.rs:79-82 | reading a freshly built (closed) file fails with the not-open error and leaves the vector as it was |
| `Files.CloseTwice` | files/src/main.rs:99-102 | closing twice gives the same name, state and data as closing once, from either state |
| `Files.FiveTxtRound` | files/src/main.rs:105-116 | a new empty "5.txt" refuses a read before opening, reads 0 bytes after opening, leaves the buffer empty and ends `Closed` |

## Left out

- `main` in both programs, all console output and the `Display`/`Debug` formatting are left out. They print and carry no contract. The two scenario members above follow the message and file steps of the two `main` functions. `HelloRound` adds one final receive for id 1 that `main` does not do.
- `String::from_utf8_lossy` is left out. It is a library decoding call used only for printing.
- The `Rc<RefCell<GroundStation>>` borrow demonstration and the `radio_freq` arithmetic are left out. They are a library's runtime borrow check and `f64` arithmetic. `radioFreq` is kept as a `real` field that nothing in the core reads or writes.
- `check_status` and `StatusMessage` are left out. The function always returns the same constant.
- `fetch_sat_ids` is left out. It is a fixed id source; `HelloRound` uses its ids 1, 2, 3 directly.
- The `Copy`/`Clone` impls of `CubeSat` are left out. A Dafny datatype is already a value.
- `save_to.reserve` is left out. It changes only capacity, never contents.
- Rust's move of a `File` into `open`/`close` is modelled by passing a reference that is modified and handed back. Aliasing that Rust's ownership rules forbid is not excluded by the model.
