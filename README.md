# Auction server: a Dafny model

This project models the core of a small live-auction server written for Node.js (`server.js`). The server keeps one auction item, a list of connected socket.io clients, and a one-second timer. It applies bids under a minimum-increment rule and counts each item down. When an item expires, it rotates to a fresh one. Every change is published to all sockets and to a UDP multicast group, and datagrams arriving from other members of the group are relayed to every socket. A separate `/authenticate` endpoint checks a CPF (a Brazilian taxpayer number) and a claimed PEM public key against a certificate directory. On a match it returns three RSA ciphertexts: the session key, the user record and the multicast address.

Modules and files:

- `wrappers.dfy` (`Wrappers`): `Option`, standing in for `null` and `undefined`.
- `transport.dfy` (`Transport`): the multicast group `224.0.0.5` and port `41234`.
- `auction_item.dfy` (`AuctionItems`): the item record and its initial value. It holds the bid rule, the one-second countdown, the rotation, and lemmas about many ticks in a row.
- `registry.dfy` (`Registry`): removing a socket from the client list (`clients.filter`).
- `auction_server.dfy` (`Auction`): class `Server` with fields `item`, `clients` and `timerRunning`. Its methods are the `connection`, `disconnect` and `newBid` handlers, the interval callback (`Tick`), `startTimer`/`stopTimer` and the UDP `message` handler. Each method returns the events it would send instead of writing to sockets. `Emit` is `socket.emit` to one socket, `Broadcast` is `io.emit`, and `Datagram` is `udpServer.send` of the item.
- `key_normalization.dfy` (`KeyNormalization`): `normalizeKey`. It models the regular-expression scan literally, proves it equal to deleting every CR and LF, and models ECMAScript `trim`.
- `bootstrap.dfy` (`Bootstrap`): `isValidCPF`, the credential lookups, symbolic RSA encryption and the `/authenticate` decision.

The class invariant `Server.Valid()` has two parts. The item satisfies `ValidItem`: the current bid never drops below the opening bid, the increment is non-negative and the clock stays between 0 and 60. And the timer is running whenever a client is connected. Every handler preserves it. The converse does not hold. Disconnecting the last client leaves the timer running until the next tick notices the empty list and stops it (the stop is lazy).

Notes on the source:

- The `else if (!clients.length > 0)` branch in the `connection` handler (server.js:49) can never be taken. Right after the push, `!clients.length` is `false`, and `false > 0` is false. So `Connect` has no stop path.
- An expired item is replaced on the tick after its clock reads 0. Every item therefore lives 61 ticks: 60 decrements and then the rotation (`AuctionItems.RoundLength`).
- `udpServer.bind(41234)` is called without an address, so `udpServer.address().address` is normally the wildcard address `0.0.0.0`. A real sender address, the server's own included, never equals it. The server's own multicast datagrams, looped back to it as a group member, would then pass the self-echo filter and be relayed to every socket as `message` events. `OnDatagram` takes the bound address as a parameter and models the comparison exactly as written, so this behaviour follows from its contract once the parameter is `0.0.0.0`.
- `!storedPublicKey` is also true for an empty key file, and `parsedData.name || null` turns an empty name into `null`. The model keeps both.
- When the request carries no `publicKey`, or one that is not a string, `normalizeKey` throws. Express then answers with status 500. The model gives this its own outcome, `HandlerError`.

## Model

| member | source | states |
|---|---|---|
| `AuctionItems.BidAccepted` | server.js:56 | an accepted bid beats the standing bid by at least the increment; with a positive increment, a bid that only matches the standing bid is refused |
| `AuctionItems.WithBid` | server.js:56-58 | an accepted bid sets `currentBid` to the amount and `currentBidUser` to the bidder and leaves every other field alone; from a valid item it yields a valid item whose bid rose by at least the increment |
| `AuctionItems.Countdown` | server.js:82-83 | a tick with time left lowers `timeRemaining` by exactly one and changes nothing else; validity is kept |
| `AuctionItems.Rotate` | server.js:86-94 | the fresh item has id + 1, the opening bid, no bidder and 60 seconds, and keeps description, opening bid and increment; it is valid whenever the increment is non-negative |
| `AuctionItems.NextItem` | server.js:81-97 | one tick with clients connected keeps the item invariant |
| `AuctionItems.AfterTicksAdd` | server.js:80-101 | running a+b ticks equals running a ticks and then b |
| `AuctionItems.CountdownTicks` | server.js:80-85 | k ticks, for k up to the time left, take exactly k seconds off the clock and change nothing else |
| `AuctionItems.ExpiryRotates` | server.js:82-96 | after time-left + 1 ticks the item is the rotation of the original, whatever bids it held |
| `AuctionItems.RoundLength` | server.js:86-96 | a rotated item keeps its id through 60 ticks and rotates again on tick 61 |
| `Registry.Without` | server.js:68 | the filtered list holds exactly the sockets of the old list other than the removed one, and is no longer |
| `Registry.WithoutAbsent` | server.js:68 | disconnecting a socket that is not registered leaves the list unchanged |
| `Registry.WithoutConcat` | server.js:68 | filtering works piecewise over concatenation, so the remaining sockets keep their order |
| `Registry.WithoutMultiset` | server.js:68 | exactly the occurrences of the removed socket go; every other socket keeps its multiplicity |
| `Registry.WithoutSingle` | server.js:67-70 | a socket registered once is removed and its neighbours close up in order |
| `Auction.Publish` | server.js:59-60 | every change is sent as two events: one `currentItem` broadcast to all sockets and one datagram of the item to 224.0.0.5:41234, neither addressed to a single socket |
| `Auction.Server.constructor` | server.js:31-41 | the server starts with item 1 ("Item de teste", 100, increment 10, 60 s, no bidder), no clients and no timer, satisfying the invariant |
| `Auction.Server.StartTimer` | server.js:74-80 | afterwards the timer runs, and a new interval is created exactly when none was running, so repeated starts never make two |
| `Auction.Server.StopTimer` | server.js:104-110 | afterwards no timer runs, and an interval is cleared exactly when one was running |
| `Auction.Server.Connect` | server.js:43-53 | the socket is appended, the item is untouched, the timer is started exactly when the list has length 1 (or keeps running), and the socket alone receives the current item |
| `Auction.Server.Disconnect` | server.js:67-70 | the list becomes the old list with the socket filtered out; neither the item nor the timer changes |
| `Auction.Server.NewBid` | server.js:55-65 | accepted exactly when amount >= current bid + increment; on acceptance the item is `WithBid` and is broadcast and multicast; on rejection the item is unchanged and one `error` goes to the bidder only |
| `Auction.Server.Tick` | server.js:80-101 | with clients, the item becomes `NextItem` of the old one (it counts down when time is left or rotates at zero) and is published, so the multi-tick lemmas about `AfterTicks` describe the server's clock; with no clients, the timer stops, the item is unchanged and nothing is sent; the invariant is kept |
| `Auction.Server.OnDatagram` | server.js:150-162 | a datagram from the server's own address is dropped; any other is sent verbatim as one `message` event to each registered socket, in list order |
| `KeyNormalization.ReplaceLineBreaks` | server.js:146 | the regular-expression replacement leaves no CR or LF and never lengthens the text |
| `KeyNormalization.ReplaceIsDrop` | server.js:146 | the left-to-right `\r\n`/`\n`/`\r` scan deletes exactly the CR and LF characters and keeps every other character in order |
| `KeyNormalization.TrimStart` | server.js:146 | the result is a suffix of the input, everything dropped is whitespace, and it does not start with whitespace |
| `KeyNormalization.TrimEnd` | server.js:146 | the result is a prefix of the input, everything dropped is whitespace, and it does not end with whitespace |
| `KeyNormalization.Trim` | server.js:146 | the result is an infix of the input, everything outside it is whitespace, it neither starts nor ends with whitespace, and it adds no line break |
| `KeyNormalization.NormalizeKey` | server.js:146 | the result is the key with its CR and LF characters deleted and the surrounding whitespace removed, every other character kept in order; it contains no CR or LF and has no leading or trailing whitespace |
| `KeyNormalization.NormalizeCleanKey` | server.js:146 | a key with no line break and no surrounding whitespace normalizes to itself |
| `KeyNormalization.NormalizeKeyIdempotent` | server.js:146 | normalizing a normalized key changes nothing |
| `KeyNormalization.LineBreakInsensitive` | server.js:146 | inserting a CR or LF anywhere in a key leaves its normal form unchanged |
| `Bootstrap.IsValidCpf` | server.js:112-114 | the truthiness test `cpf &&` together with the length test holds exactly when a CPF of exactly 11 characters was sent |
| `Bootstrap.Encrypt` | server.js:140-144 | a ciphertext made under a public key is recovered by the matching private key and by no other key pair |
| `Bootstrap.FailureMessagesDistinct` | server.js:181-201 | the three rejection messages differ from one another, so a client can tell the reasons apart |
| `Bootstrap.ToHttp` | server.js:181-201 | success is status 200 and carries all three ciphertexts; a rejection is status 400 with its own message and no ciphertext; a handler that threw gives status 500 and no ciphertext |
| `Bootstrap.Authenticate` | server.js:173-203 | fails with invalid CPF iff the CPF is not 11 characters; else with not found iff no non-empty stored key; else throws iff no claimed key; else with mismatch iff the normalized keys differ; succeeds iff all pass, with the session key, `{nome, cpf}` and 224.0.0.5 each encrypted under the claimed key |
| `Bootstrap.AuthenticatedRoundTrip` | server.js:184-196 | the holder of the registered key pair recovers the session key, the user record and the multicast address from a successful response |
| `Bootstrap.AuthenticateIgnoresLineBreaks` | server.js:184 | adding a line break to the claimed key changes neither whether the handshake succeeds nor why it fails |
| `Bootstrap.DistinctCleanKeysMismatch` | server.js:184-198 | a claimed key in normal form that differs from a stored key in normal form is rejected as a mismatch |

## Left out

- Express, CORS, static files, the socket.io and dgram set-up, `bind`/`addMembership` and `server.listen` (server.js:1-29, 164-171, 205-208). These are I/O wiring, and every send is a returned event instead.
- The file-system reads of `getPublicKey` and `getName` (server.js:116-138). A `CredentialStore` of two maps replaces them, read by the lookups `Bootstrap.StoredPublicKey` and `Bootstrap.StoredName`; what they mean for the handshake is stated by `Bootstrap.Authenticate`. A profile whose JSON does not parse makes `getName` throw, and that path is not modelled.
- NodeRSA PKCS#1 v1.5 encryption, base64 output and `crypto.randomBytes` (server.js:140-148). Encryption is symbolic, and the session key is a parameter of `Authenticate`. The randomness of the padding, the plaintext size limit and key parsing are not modelled.
- `AuthenticatedRoundTrip` rests on an assumption of the symbolic crypto, `Bootstrap.Encrypt` and `Bootstrap.Decrypt`, and the contract of `Bootstrap.Encrypt` is that assumption. The assumption is that a ciphertext opens under any key whose PEM text normalizes to the same string as the key it was made under, and under no other. The server never decrypts, and real PEM parsing is not modelled.
- `setInterval`/`clearInterval` scheduling. A tick is an explicit call to `Tick`, allowed only while `timerRunning` holds, because the callback exists only then.
- JSON serialisation of the multicast payload, UTF-8 decoding of received datagrams (`msg.toString()`), and all `console.log` output.
- Floating-point bid amounts and JavaScript's dynamic typing. Amounts are integers and the bidder is a string. Request fields are optional strings: a CPF that is not a string, such as an array of length 11, is not modelled.
- `Bootstrap.IsValidCpf` counts Unicode scalar values, while JavaScript's `length` counts UTF-16 code units. These differ only for characters outside the Basic Multilingual Plane.
- socket.io's own set of connected sockets. `io.emit` is the `Broadcast` event, and the model does not relate that set to `clients`.
- The timer race between a last disconnect and a tick in flight. JavaScript's single-threaded event loop makes each handler atomic, and so does the model.
