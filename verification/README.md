# Communication stack: verified model

A Dafny model of the communication library of the repository: the message encryption of the C++ and Go
codecs down to the field arithmetic, the request/reply protocol over publish/subscribe topics, the two
wire formats, the configuration closure that decides which buses exist, and the YAML subset of the
monitor.  `dafny verify dfyconfig.toml` checks everything.

| Files | What they model |
|---|---|
| `Bytes`, `Words`, `MachineWords`, `Text` | byte strings, blocks, little- and big-endian fields, machine words, text |
| `GaloisField`, `Ghash`, `AesTables`, `Aes`, `AesBytes`, `AesVectors`, `Gcm` | AES-GCM as the C++ codec writes it out, against FIPS 197 with its examples and NIST SP 800-38D |
| `Primes`, `ShaConstants`, `Sha`, `ShaBits`, `ShaVectors`, `Hkdf` | SHA-256, HMAC and HKDF, against FIPS 180-4, RFC 2104 and RFC 5869 |
| `SecurityEnvelope`, `SecurityModel`, `CppSecurityCodec` | the envelope of both languages and the C++ codec object |
| `ReplayWindow`, `GoSecurityCodec`, `SecureBus`, `SecurityResolution`, `Interop` | the Go codec against the C++ one, its replay window, the secured bus, runs of many buses, profile and binding resolution |
| `RpcFrames`, `RpcSession`, `CppRpc`, `SessionTable` | request/reply over topics: frames, the Go session with concurrent callers, the C++ call, the session table |
| `Cdr`, `Base64` | the CDR envelope with its two readers, and the decoding of secrets |
| `Yaml` | the indent-stack parser of the monitor |
| `RoutePlans`, `RouteClosure`, `CppRouteClosure`, `RouteAgreement`, `BusSelection` | route plans, both passes of both configuration loaders and their agreement, bus creation and lookup |

Objects that the source updates in place are classes (codecs, replay window, secured bus, CDR reader,
fabric) or arrays (cipher state, shift register, hash schedule).  Concurrent code (`RpcSession`, `CppRpc`,
`SessionTable`, the runs of `SecureBus`) is a system of atomic steps: one step per lock, channel, table or
network operation, with loss, timeouts and, for control frames, duplication and reordering as free
choices.  Go's random map iteration is a free choice everywhere.

Where the code does not do what one would expect of it, the exact condition is proved for all inputs or
runs, and an instance is given:

- A reply that arrives after its call timed out is returned to a later call on the same session
  (`RpcSession.OwnReplyExactly`, `LateReplyMisdelivered`); in C++ a call also keeps replies that arrive
  while it is still pairing, and overlapping calls take each other's (`CppRpc.OwnReplyExactly`,
  `CallsCross`).
- A sessionFor that is under way when CloseClient collects can insert a session of the closed client
  (`SessionTable.ClientGoneExactly`).
- The Go default-middleware pass never sees binding routes, so these depend on other routes and on the
  configuration for their buses (`RouteClosure.BindingClosure`, `BindingHasNoBus`); the C++ one looks at
  the wrong list of routes with both `middlewares` and bindings (`CppRouteClosure.Closure`,
  `BothListsEscape`).
- The C++ fabric creates a ROS2 bus only for ROS2 endpoints, but any endpoint may name one
  (`BusSelection.LookupFindsBus`).
- Go trims what C++ takes as it is, and C++ accepts algorithm names with mixed separators that Go refuses;
  for tidy entries the two agree (`CppRouteClosure.PlansAgree`, `SpacedNameDiffers`,
  `SecurityResolution.AlgorithmsAgree`, `MixedNameDiffers`).
- The replay window's eviction loop takes 0 for "no minimum yet", so a stored 0 makes the evicted element
  depend on the iteration order (`ReplayWindow.EvictsLeastInEveryOrder`); codecs number from 1.

## Model

| member | source | states |
|---|---|---|
| GaloisField.MulIsReducedProduct | infra/communication/cpp/core/security_codec.hpp:360-375 | the field product is the schoolbook polynomial product reduced by x^128+x^7+x^2+x+1, for all elements |
| GaloisField.ClassIsRemainder | infra/communication/cpp/core/security_codec.hpp:360-375 | the reduction is the remainder: adding any multiple of the modulus leaves the class, and a polynomial of degree below 128 is its own class |
| GaloisField.MulCommutes | infra/communication/cpp/core/security_codec.hpp:360-375 | the product is commutative |
| GaloisField.MulDistributes | infra/communication/cpp/core/security_codec.hpp:360-375 | the product distributes over xor |
| GaloisField.MulAssociates | infra/communication/cpp/core/security_codec.hpp:360-375 | the product is associative |
| Ghash.ShiftRightOne | infra/communication/cpp/core/security_codec.hpp:390-397 | the in-place byte-carry loop is a shift of the 128-bit string by one, bit for bit |
| Ghash.MultiplyByX | infra/communication/cpp/core/security_codec.hpp:369-372 | shift, then 0xE1 into byte 0 when the lost bit was set: multiplication by x in GCM's bit order (section 6.3 of NIST SP 800-38D) |
| Ghash.GfMul | infra/communication/cpp/core/security_codec.hpp:360-375 | the 128-step loop returns the block of the field product of its arguments |
| Ghash.GHashBlocks | infra/communication/cpp/core/security_codec.hpp:349-358 | the loop cuts any byte string into 16-byte blocks, the last one zero-filled |
| Ghash.GHash | infra/communication/cpp/core/security_codec.hpp:332-347 | the hash of any AAD and ciphertext is the chain over their blocks and the block of their bit lengths |
| Ghash.ChainIsPowerSum | infra/communication/cpp/core/security_codec.hpp:332-347 | that chain is the Horner sum: each block times the power of H of its distance from the end |
| Ghash.WriteBE64 | infra/communication/cpp/core/security_codec.hpp:572-576 | the loop writes the eight big-endian bytes and leaves the rest of the block alone |
| AesTables.SboxIsAffineOfInverse | infra/communication/cpp/core/security_codec.hpp:602-619 | every entry of the substitution table is the affine image of the multiplicative inverse in GF(2^8) (section 5.1.1 of FIPS 197) |
| AesTables.SboxOneToOne | infra/communication/cpp/core/security_codec.hpp:602-619 | the substitution is one-to-one |
| AesTables.RconIsPower | infra/communication/cpp/core/security_codec.hpp:599-601 | the round constants are the powers of x in GF(2^8) |
| Aes.ExpandKey | infra/communication/cpp/core/security_codec.hpp:217-242 | exactly 16- and 32-byte keys are accepted, and their loop yields the 4*(rounds+1) words of section 5.2 of FIPS 197 with every table index in range |
| AesBytes.KeyBytes | infra/communication/cpp/core/security_codec.hpp:217-242 | for every key, word and byte, section 5.2 of FIPS 197 without words: byte r of word i is byte r of word i-nk xored with a byte of word i-1, taken one place further, substituted and with a power of x added at multiples of nk, or just substituted halfway in 256-bit keys |
| AesBytes.KeyBlockStep | infra/communication/cpp/core/security_codec.hpp:217-242 | sixteen bytes of every 128- or 256-bit key schedule from those one key length back and the last sixteen |
| Aes.AddRoundKey | infra/communication/cpp/core/security_codec.hpp:259-267 | xors the round's four words into the state's columns, byte by byte |
| Aes.SubBytes | infra/communication/cpp/core/security_codec.hpp:280-284 | substitutes every byte of the state in place |
| Aes.ShiftRows | infra/communication/cpp/core/security_codec.hpp:286-293 | rotates row r of the state by r columns in place |
| Aes.MixColumns | infra/communication/cpp/core/security_codec.hpp:295-308 | the in-place xtime form computes the matrix product of section 5.1.3 of FIPS 197 on every column |
| Aes.XtimeForm | infra/communication/cpp/core/security_codec.hpp:295-316 | the sum-and-double form of one column byte equals the product 2a+3b+c+d |
| Aes.EncryptBlock | infra/communication/cpp/core/security_codec.hpp:244-257 | the rounds in sequence are the cipher of section 5.1 of FIPS 197 |
| Aes.ColumnOneToOne | infra/communication/cpp/core/security_codec.hpp:295-308 | MixColumns is one-to-one on columns, since its kernel is zero |
| Aes.EncryptedOneToOne | infra/communication/cpp/core/security_codec.hpp:244-257 | for every key schedule the cipher is one-to-one on blocks |
| AesVectors.ShortExample | infra/communication/cpp/core/security_codec.hpp:215-257 | the cipher gives the ciphertext of appendix C.1 of FIPS 197, by all its round keys and states |
| AesVectors.LongExample | infra/communication/cpp/core/security_codec.hpp:215-257 | the cipher gives the ciphertext of appendix C.3 of FIPS 197, a 256-bit key, by all its round keys and states |
| Gcm.Inc32 | infra/communication/cpp/core/security_codec.hpp:377-388 | the carry loop adds one to the last 32 bits, wrapping, and leaves the first 96 alone |
| Gcm.CounterValue | infra/communication/cpp/core/security_codec.hpp:318-330 | the i-th counter block is the first one with i added to its last 32 bits modulo 2^32 |
| Gcm.CountersDistinct | infra/communication/cpp/core/security_codec.hpp:178-191 | for every length the 32-bit length field can carry, all counter blocks of a message and the block J0 are pairwise distinct, and so are the keystream blocks they encrypt to |
| Gcm.Gctr | infra/communication/cpp/core/security_codec.hpp:318-330 | the output is the input xored with the keystream of successive counter blocks (section 6.5 of NIST SP 800-38D) |
| Gcm.GctrInvolutive | infra/communication/cpp/core/security_codec.hpp:318-330 | counter mode is its own inverse, at every length |
| Gcm.OpenSeal | infra/communication/cpp/core/security_codec.hpp:178-213 | opening a sealed text returns it, for all keys, nonces, texts and additional data |
| Gcm.SealOpen | infra/communication/cpp/core/security_codec.hpp:193-213 | nothing but a sealed text opens: sealing what was opened restores ciphertext and tag |
| Gcm.AesGcmEncrypt | infra/communication/cpp/core/security_codec.hpp:178-191 | encryption computes that sealing, or fails exactly on keys of other lengths |
| Gcm.AesGcmDecrypt | infra/communication/cpp/core/security_codec.hpp:193-213 | decryption computes that opening, with the errors for short input and for a wrong tag |
| Sha.Pad | infra/communication/cpp/core/security_codec.hpp:457-465 | the marker, the filling loop and the length bytes give the padded message |
| Sha.PaddedLengthLeast | infra/communication/cpp/core/security_codec.hpp:458-462 | the padded length is the least multiple of 64 that is at least n+9 |
| Sha.PaddedInjective | infra/communication/cpp/core/security_codec.hpp:457-465 | padding is injective on all inputs below 2^61 bytes |
| ShaBits.BigSigma0Bits | infra/communication/cpp/core/security_codec.hpp:492 | for all words, bit k is the xor of bits k+2, k+13 and k+22 modulo 32 (section 4.1.2 of FIPS 180-4) |
| ShaBits.BigSigma1Bits | infra/communication/cpp/core/security_codec.hpp:489 | for all words, bit k is the xor of bits k+6, k+11 and k+25 modulo 32 |
| ShaBits.SmallSigma0Bits | infra/communication/cpp/core/security_codec.hpp:475-477 | for all words, bit k is the xor of bits k+7 and k+18 modulo 32 and of bit k+3, if there is one |
| ShaBits.SmallSigma1Bits | infra/communication/cpp/core/security_codec.hpp:475-477 | for all words, bit k is the xor of bits k+17 and k+19 modulo 32 and of bit k+10, if there is one |
| ShaBits.ChSelects | infra/communication/cpp/core/security_codec.hpp:490 | for all words, each bit of the first argument chooses between the bits of the others |
| ShaBits.MajIsMajority | infra/communication/cpp/core/security_codec.hpp:493 | for all words, each bit is the one at least two arguments have |
| Sha.ExpandBlock | infra/communication/cpp/core/security_codec.hpp:467-479 | the in-place schedule array holds the message schedule of section 6.2.2 of FIPS 180-4 |
| Sha.CompressBlock | infra/communication/cpp/core/security_codec.hpp:480-513 | 64 rounds on the working variables, added to the state array: the recursive compression function |
| Sha.Sha256 | infra/communication/cpp/core/security_codec.hpp:444-522 | the digest is the fold of that compression over the padded blocks, for every input |
| ShaVectors.AbcExample | infra/communication/cpp/core/security_codec.hpp:444-522 | the digest of "abc" is the one of the standard, by every schedule word and every state of the 64 rounds |
| Primes.PrimesInOrder | infra/communication/cpp/core/security_codec.hpp:445-456 | the table the constants are checked against holds the first 64 primes in order: each entry is prime, and as many primes are smaller as its index says |
| ShaConstants.KIsCubeRootFraction | infra/communication/cpp/core/security_codec.hpp:445-453 | each round constant is the first 32 bits of the fractional part of the cube root of the prime of its index |
| ShaConstants.HIsSquareRootFraction | infra/communication/cpp/core/security_codec.hpp:454-456 | each initial word is the first 32 bits of the fractional part of the square root of the prime of its index |
| Hkdf.HmacSha256 | infra/communication/cpp/core/security_codec.hpp:426-442 | the padded inner and outer hash of RFC 2104, long keys hashed first |
| Hkdf.ZeroPaddedKey | infra/communication/cpp/core/security_codec.hpp:426-442 | zero bytes appended to a key within the block change nothing, so an empty salt and a zero salt agree |
| Hkdf.HkdfSha256 | infra/communication/cpp/core/security_codec.hpp:409-424 | the loop returns the first bytes of T(1), T(2), ... under the extracted key |
| Hkdf.DerivedPrefix | infra/communication/cpp/core/security_codec.hpp:409-424 | a shorter output is a prefix of every longer one |
| Hkdf.DerivedByte | infra/communication/cpp/core/security_codec.hpp:409-424 | up to 8160 bytes, byte k is byte k mod 32 of T(k/32+1) of section 2.3 of RFC 5869: the counter byte never wraps |
| SecurityEnvelope.MarshalGo | infra/communication/go/core/security_codec.go:202-237 | the Go appends give the envelope's layout |
| MachineWords.CastKeeps | infra/communication/cpp/core/security_codec.hpp:540-570 | casting a number to a 32- or 64-bit word keeps it modulo the width, and the word's bytes are the number's little-endian bytes |
| MachineWords.AppendLE32 | infra/communication/cpp/core/security_codec.hpp:545-549 | the shift-and-mask loop appends the word's four bytes, least significant first |
| MachineWords.AppendLE64 | infra/communication/cpp/core/security_codec.hpp:551-555 | the shift-and-mask loop appends the word's eight bytes, least significant first |
| MachineWords.ReadLE32 | infra/communication/cpp/core/security_codec.hpp:557-562 | the four shifted bytes make the word of the field's value |
| MachineWords.ReadLE64 | infra/communication/cpp/core/security_codec.hpp:564-570 | the loop that shifts bytes in from the top makes the word of the field's value |
| SecurityEnvelope.MarshalCpp | infra/communication/cpp/core/security_codec.hpp:112-140 | the C++ writer, its fields appended by shifting and masking, gives the very bytes of the Go writer, after refusing key ids over 255 bytes |
| SecurityEnvelope.UnmarshalGo | infra/communication/go/core/security_codec.go:239-280 | the moving offset reads exactly the envelope's fields or reports the error the code reports |
| SecurityEnvelope.ParseCpp | infra/communication/cpp/core/security_codec.hpp:142-176 | the C++ reader, its fields put together by shifts and its checks in its own order, accepts the same inputs with the same fields; only the error for an empty key id differs |
| SecurityEnvelope.ParseOfMarshal | infra/communication/cpp/core/security_codec.hpp:112-176 | an envelope survives marshalling and parsing exactly when it is well-formed; otherwise parsing fails |
| SecurityEnvelope.MarshalOfParse | infra/communication/go/core/security_codec.go:202-280 | marshalling an accepted input restores it with the two reserved bytes zeroed |
| CppSecurityCodec.SecurityCodec.Encrypt | infra/communication/cpp/core/security_codec.hpp:27-32 | counts the message and seals it under the new number, sender, nonce and direction |
| CppSecurityCodec.SecurityCodec.Decrypt | infra/communication/cpp/core/security_codec.hpp:34-50 | parses, checks algorithm, additional-data hash and key in this order, and opens |
| CppSecurityCodec.SecurityCodec.EncryptWithOptions | infra/communication/cpp/core/security_codec.hpp:52-76 | the envelope of the sealed text under the route key, or the code's error |
| CppSecurityCodec.DecryptOfEncrypt | infra/communication/cpp/core/security_codec.hpp:27-76 | for a profile whose keys are stored under their own ids, Decrypt(Encrypt(p)) is p exactly when the key id has 1..255 bytes and p is shorter than 2^32 bytes |
| CppSecurityCodec.EncryptOfDecrypt | infra/communication/cpp/core/security_codec.hpp:34-76 | Decrypt accepts only what sealing produces: re-sealing the returned text with the envelope's own fields gives the received bytes up to the reserved two |
| SecurityModel.RouteKeyInfoBinds | infra/communication/cpp/core/security_codec.hpp:105-110 | two bindings with colon-free names derive route keys from the same text exactly when profile name, route and message type agree |
| Interop.SameBytes | infra/communication/cpp/core/security_codec.hpp:52-76 | with the primitives written out here for Go's, both languages seal a message to the same bytes, for every resolved profile |
| Interop.SameOpening | infra/communication/cpp/core/security_codec.hpp:34-50 | and both open the same messages to the same plaintext |
| ReplayWindow.ReplayWindow.Accept | infra/communication/go/core/security_codec.go:333-355 | refuses exactly a number still remembered of its sender; on acceptance stores it and evicts one element when over the limit; other senders' sets are untouched |
| ReplayWindow.EvictionCandidate | infra/communication/go/core/security_codec.go:346-352 | the loop over a map in arbitrary order ends with the value the fold over that order gives |
| ReplayWindow.EvictsLeastInEveryOrder | infra/communication/go/core/security_codec.go:346-352 | the loop finds the least element in every iteration order exactly when 0 is not in the set |
| ReplayWindow.WindowIsTop | infra/communication/go/core/security_codec.go:320-355 | after any run of numbers from 1 on, a sender's set is the `limit` largest distinct numbers it presented |
| ReplayWindow.ForgottenExactly | infra/communication/go/core/security_codec.go:333-355 | a presented number is forgotten exactly when `limit` larger distinct ones have been presented |
| ReplayWindow.IncreasingAccepted | infra/communication/go/core/security_codec.go:333-355 | a sender that counts up is never refused |
| ReplayWindow.FreshAccepted | infra/communication/go/core/security_codec.go:333-355 | a number never presented is accepted, in whatever order numbers arrive |
| GoSecurityCodec.SecurityCodec.Encrypt | infra/communication/go/core/security_codec.go:87-142 | counts modulo 2^64 and seals under the new number |
| GoSecurityCodec.SecurityCodec.Decrypt | infra/communication/go/core/security_codec.go:144-179 | the checks in order; only an authenticated message reaches the replay window, which then decides |
| GoSecurityCodec.OpenedOfSealed | infra/communication/go/core/security_codec.go:95-179 | opening what was sealed yields text, sender and number exactly when the text is shorter than 2^32 bytes |
| GoSecurityCodec.AadAgrees | infra/communication/go/core/security_codec.go:185-200 | Go and C++ authenticate the same additional data exactly when the configured context has no surrounding white space |
| GoSecurityCodec.AadBinds | infra/communication/go/core/security_codec.go:185-200 | for line-free names, equal additional data means equal profile name, route, binding, transport, address, message type, direction and context |
| GoSecurityCodec.OtherAlgorithmRefused | infra/communication/go/core/security_codec.go:144-160 | what is sealed under one algorithm is refused under the other |
| GoSecurityCodec.SealedParses | infra/communication/go/core/security_codec.go:95-142 | whatever is sealed can be parsed again, so a key without id seals nothing |
| SecureBus.SecureMessageBus.Publish | infra/communication/go/core/secure_bus.go:39-45 | publishes the sealed payload under the codec's next number |
| SecureBus.SecureMessageBus.OnMessage | infra/communication/go/core/secure_bus.go:47-55 | the installed callback hands on the opened payload or the codec's error |
| SecureBus.SecureMessageBus.StartRequest | infra/communication/go/core/secure_bus.go:57-66 | seals the request in the request direction |
| SecureBus.SecureMessageBus.FinishRequest | infra/communication/go/core/secure_bus.go:67-72 | opens the response in the response direction |
| SecureBus.SecureMessageBus.OnRequest | infra/communication/go/core/secure_bus.go:74-86 | opens the request, calls the handler on the plaintext, and seals its answer; no answer after an error |
| SecureBus.SecureMessageBus.GivenIsReceived | infra/communication/go/core/security_codec.go:144-179 | while all numbers were positive, what a codec gives for a message depends on the calls so far alone |
| SecureBus.BusTransparent | infra/communication/go/core/secure_bus.go:39-86 | in every run of codecs with distinct sender ids and unwrapped counters, over a bus that drops and reorders but neither duplicates nor alters, every delivery gives the plaintext sent, or fails exactly when that is 2^32 bytes or longer |
| SecureBus.RpcTransparent | infra/communication/go/core/secure_bus.go:57-86 | in every such run a received response is what the responder's handler returns for the plaintext of the request it answers |
| SecureBus.DuplicateRefusedExactly | infra/communication/go/core/security_codec.go:144-179 | a second delivery is refused exactly while fewer than `limit` larger numbers of its sender have been received |
| RpcFrames.ProbesDistinct | infra/communication/go/dds/native.go:427-432 | distinct clock readings give distinct probe frames |
| RpcFrames.AckIdentifiesProbe | infra/communication/go/dds/native.go:434-440 | two frames share an acknowledgement exactly when they agree after the prefix or neither passes it; among probe frames only equal ones do |
| RpcFrames.AckIsNoProbe | infra/communication/cpp/dds/bus.hpp:524-545 | an acknowledgement is never taken for a probe |
| RpcFrames.PrefixText | infra/communication/go/dds/native.go:44-47 | the two prefixes are the bytes of their texts |
| RpcSession.OneInFlight | infra/communication/go/dds/native.go:144-176 | in every run of concurrent callers at most one is past its lock and at most one request awaits its reply |
| RpcSession.HandshakeSound | infra/communication/go/dds/native.go:471-501 | in every run the ready flags are never both set nor cleared, nothing is published before one holds, and a paired session had its own call's probe received by a server after that call began to probe |
| RpcSession.RepliesCorrelate | infra/communication/go/dds/native.go:155-175 | in every run a returned reply is the handler's answer to the call's own payload unless an earlier call on the session timed out, and then to some earlier payload |
| RpcSession.OwnReplyExactly | infra/communication/go/dds/native.go:163-175 | a call about to publish is certain to get its own reply, if any, exactly when no reply or answerable request is outstanding |
| RpcSession.LateReplyMisdelivered | infra/communication/go/dds/native.go:163-175 | a concrete run in which the late reply of a timed-out call is returned to the next call |
| RpcSession.DrainedNeverReturned | infra/communication/go/dds/native.go:155-175 | in every run, a reply that is buffered at any moment before a call has finished draining is never what that call returns |
| RpcSession.ChannelsBounded | infra/communication/go/dds/native.go:196-204 | in every run both channels hold at most eight items, and one that arrives is dropped exactly when eight are held |
| CppRpc.PairedBeforePublished | infra/communication/cpp/dds/bus.hpp:237-337 | in every run a C++ call that has published has had its own probe received, and returns the handler's answer to some published request |
| CppRpc.OwnReplyExactly | infra/communication/cpp/dds/bus.hpp:249-337 | at any moment of any run, over all continuations, a C++ call is certain to return its own reply, if any, exactly when its condition holds: before publication, when it holds no reply, nothing is outstanding and every other call is past its publication |
| CppRpc.CallsCross | infra/communication/cpp/dds/bus.hpp:249-337 | from the start of every run, of any two C++ calls one can return the other's reply |
| CppRpc.TimedOutUnanswered | infra/communication/cpp/dds/bus.hpp:320-337 | in every run a C++ call that times out has heard no reply |
| SessionTable.PrefixExact | infra/communication/go/dds/native.go:260-268 | the prefix test of CloseClient picks exactly the client's own session keys, ids being free of NUL |
| SessionTable.SessionKeyExact | infra/communication/go/dds/native.go:585-592 | for parts free of NUL, two session keys are equal exactly when client, standard, request key and response key are |
| SessionTable.TopicKeyExact | infra/communication/go/dds/native.go:598-609 | for separable parts, two topic keys are equal exactly when name, type and options are |
| SessionTable.LookupReuses | infra/communication/go/dds/native.go:178-195 | a lookup of a tabled key returns the tabled session and changes nothing else |
| SessionTable.TableSafe | infra/communication/go/dds/native.go:178-275 | under every interleaving of sessionFor and CloseClient a tabled session is open, not closed, and under its own key; nothing is unsubscribed twice; with no call in progress the open subscriptions are exactly those of tabled sessions |
| SessionTable.SweepExact | infra/communication/go/dds/native.go:260-271 | CloseClient's collecting step removes exactly its client's entries and takes on exactly their sessions |
| SessionTable.CloseClientCloses | infra/communication/go/dds/native.go:260-275 | whatever runs beside it, when CloseClient returns every session it collected is closed, unsubscribed once on each topic, and in the table no more |
| SessionTable.ClientGoneExactly | infra/communication/go/dds/native.go:178-275 | after CloseClient has collected, the table is certain to hold nothing of the client once it has returned exactly when no sessionFor for that client is undecided or yet to begin |
| SessionTable.OneSessionPerKey | infra/communication/go/dds/native.go:178-258 | all callers of sessionFor with one key get the same session unless that client was swept |
| Cdr.EncodeProtoEnvelopeCDR | infra/communication/cpp/dds/bus.hpp:828-846 | the appends give the aligned encoding of the four strings, the time and the payload |
| Cdr.CdrEnvelopeReader.SkipString | infra/communication/cpp/dds/bus.hpp:860-868 | skips an aligned, non-empty counted string that fits; otherwise the offset stands where the length was tried |
| Cdr.CdrEnvelopeReader.ReadBytes | infra/communication/cpp/dds/bus.hpp:879-889 | reads an aligned counted byte block that fits; otherwise the offset stands where the length was tried |
| Cdr.DecodeProtoEnvelopeCDRPayload | infra/communication/cpp/dds/bus.hpp:913-926 | the payload of an envelope, and any other input unchanged |
| Cdr.CdrCreatedAtUnixMs | monitor/pr-monitor/native/cyclonedds_sample.cpp:117-138 | the monitor's own offset walk reads the time field |
| Cdr.DecodeOfEncode | infra/communication/cpp/dds/bus.hpp:828-926 | for all strings within their length fields the decoded payload is the encoded one exactly when it is shorter than 2^32 bytes, at every alignment |
| Cdr.StringsOfEncode | infra/communication/cpp/dds/bus.hpp:828-846 | the envelope holds the channel's type, codec, route and trace, with their defaults |
| Cdr.AlignLeast | infra/communication/cpp/dds/bus.hpp:790-802 | past the header, aligning moves to the least position that is a multiple of the alignment away from the header's end |
| Cdr.CreatedAtOfEncode | monitor/pr-monitor/native/cyclonedds_sample.cpp:117-138 | the monitor reads back the time written, unless it is zero |
| Cdr.ReadersAgree | monitor/pr-monitor/native/cyclonedds_sample.cpp:107-138 | on any bytes the payload reader accepts, the monitor finds the time field too |
| Base64.DecodeSecuritySecret | infra/communication/cpp/core/security.hpp:188-225 | the 32-bit accumulator loop computes the bytes of the sextet groups, or returns the text without white space |
| Base64.PushStep | infra/communication/cpp/core/security.hpp:213-218 | in each of the four alignments only the pending low bits of the accumulator reach the output |
| Base64.LetterInAlphabet | infra/communication/cpp/core/security.hpp:188-204 | the letter of a sextet is the one at its place in the alphabet's text |
| Base64.DecodeOfEncode | infra/communication/cpp/core/security.hpp:188-225 | whatever white space is spread over it, the base64 text of any bytes, padded or not, decodes to them (section 4 of RFC 4648) |
| Base64.EncodeOfDecode | infra/communication/cpp/core/security.hpp:188-225 | encoding decoded sextets restores them exactly when they are canonical |
| SecurityResolution.ResolveSecurityProfile | infra/communication/go/core/security_config.go:152-213 | succeeds exactly when name, algorithm, every key and the encrypt key are usable; keys are then under their own ids and the encrypt key among them |
| SecurityResolution.KeyRead | infra/communication/go/core/security_config.go:170-190 | a key is usable exactly when its id and key variable are named and set, and its salt variable set if named; both are decoded from the environment |
| SecurityResolution.SingleKey | infra/communication/go/core/security_config.go:160-200 | a profile without a key list has one key, which encrypts exactly when key_id and encrypt_key_id do not name two different ones |
| SecurityResolution.AlgorithmNamed | infra/communication/go/core/security_codec.go:70-86 | an algorithm's name says how many bits its keys have |
| SecurityResolution.AlgorithmsAgree | infra/communication/cpp/core/security.hpp:174-187 | Go and C++ read a trimmed algorithm name alike unless it mixes dashes and underscores |
| SecurityResolution.MixedNameDiffers | infra/communication/cpp/core/security.hpp:174-187 | a name that mixes them is an algorithm in C++ and an error in Go |
| SecurityResolution.ResolvedSuffices | infra/communication/go/core/security_config.go:152-213 | a resolved profile satisfies what the codecs ask for exactly when its key id has at most 255 bytes, and both languages then authenticate the same data |
| SecurityResolution.ResolutionAgrees | infra/communication/go/core/security_config.go:94-145 | Go and C++ bind tidy endpoints alike except where a NATS endpoint must name a profile and names none: Go leaves it unsecured, C++ refuses |
| Yaml.StripComment | monitor/pr-monitor/src/yaml.ts:79-93 | the quote-tracking loop returns the text up to the first # outside quotes |
| Yaml.NextChildIsList | monitor/pr-monitor/src/yaml.ts:68-77 | the lookahead loop decides by the next significant line |
| Yaml.AcceptLine | monitor/pr-monitor/src/yaml.ts:14-41 | one line pops, appends, assigns and pushes as the step on heap and stack says |
| Yaml.ParseYamlSubset | monitor/pr-monitor/src/yaml.ts:4-45 | the parser's loop is the fold of that step over the significant lines |
| Yaml.LineEndsAlike | monitor/pr-monitor/src/yaml.ts:6 | both kinds of line end split a text into the same lines |
| Yaml.QuotedIsNoComment | monitor/pr-monitor/src/yaml.ts:79-93 | whatever stands between a pair of quotes is no comment |
| Yaml.SplitsAtFirstColon | monitor/pr-monitor/src/yaml.ts:95-99 | a pair is split at its first colon and both halves are trimmed |
| Yaml.ShownReads | monitor/pr-monitor/src/yaml.ts:101-111 | a boolean, null, integer, decimal or proper text that is shown reads back as itself, type and all |
| Yaml.WrittenReads | monitor/pr-monitor/src/yaml.ts:101-111 | every integer is read as an integer with its value |
| Yaml.IntegersAreWritten | monitor/pr-monitor/src/yaml.ts:101-111 | what is read as an integer is an integer as it is written, up to leading zeros and "-0" |
| Yaml.QuotesChangeNothing | monitor/pr-monitor/src/yaml.ts:101-111 | quotes around an unquoted scalar change nothing, so a quoted number is a number |
| Yaml.SymbolsRead | monitor/pr-monitor/src/yaml.ts:101-111 | {} and [] are containers and ~ is null |
| Yaml.StackInvariant | monitor/pr-monitor/src/yaml.ts:4-45 | on any text, after every line the root is at the bottom, indents strictly increase, each container is held by the one below, and the heap is acyclic |
| Yaml.ParseOfPrinted | monitor/pr-monitor/src/yaml.ts:4-118 | for every tree of nested mappings, lists of scalars and lists of flat mappings over texts, integers, decimals, booleans and null, at any indentation width and with any comments and blank lines around, parsing the printed lines gives the tree |
| Yaml.ParseOfPrint | monitor/pr-monitor/src/yaml.ts:4-118 | the same for the printed text itself |
| Yaml.RepresentsUnique | monitor/pr-monitor/src/yaml.ts:4-45 | a heap slot holds one value, so the parsed tree is that tree and no other |
| RoutePlans.PlanAgrees | infra/communication/go/core/service_config.go:387-515 | a plan's transport name means its transport, and its runtime name is never blank and determines it |
| RoutePlans.PlanKeepsMiddleware | infra/communication/go/core/service_config.go:387-515 | for every kind, name and data with a plan: the plan's middleware name means the transport the configured name means, and the plan runs on it, or on ROS2 exactly for the ROS2 names and for non-native formats of the DDS names; its other names follow the middleware's |
| RoutePlans.FormatTwice | infra/communication/go/core/service_config.go:526-604 | a normalised format is its own normal form |
| RoutePlans.HyphensAreUnderscores | infra/communication/go/core/service_config.go:606-608 | names and formats read the same with hyphens as with underscores |
| RouteClosure.ExpandMiddleware | infra/communication/go/core/service_config.go:327-363 | the result holds one of the items each expanded name stands for, in any iteration order |
| RouteClosure.MiddlewareConfigs | infra/communication/go/core/service_config.go:135-157 | the buses are exactly the enabled middleware and the names routes refer to, configured ones with their own transport |
| RouteClosure.MergedBindingRefersToNothing | infra/communication/go/core/service_config.go:292-297 | Go's merged binding routes never refer to default middleware |
| RouteClosure.MergeLaws | infra/communication/go/core/service_config.go:1139-1215 | merging a binding that gives nothing changes nothing, one that gives everything replaces all but the nested lists and merges the metadata, and merging is associative |
| RouteClosure.BoundRouteLaws | infra/communication/go/core/service_config.go:1063-1078 | the same of what a binding stands for, which has no nested lists |
| RouteClosure.RouteNameShape | infra/communication/go/core/service_config.go:1022-1029 | a cleaned name has only letters, digits and inner underscores, and such a name stays |
| RouteClosure.BindingNames | infra/communication/go/core/service_config.go:1263-1296 | unnamed bindings are told apart by their place, a named one is called after its name |
| RouteClosure.BoundKeysApart | infra/communication/go/core/service_config.go:1072-1087 | bindings of one route share a key exactly when they share a proper name, unnamed ones exactly when they are one; keys tell routes apart |
| RouteClosure.FinishedBindingNames | infra/communication/go/core/service_config.go:1079-1084 | a finished binding carries its route's and its own name, and what finishing gives any route |
| RouteClosure.ExecutionMetadata | infra/communication/go/core/service_config.go:704-722 | the plan's middleware, runtime and implementation stand in the metadata, rmw_implementation exactly for DDS over ROS2, and every other entry stays |
| RouteClosure.RouteMetadataKeeps | infra/communication/go/core/service_config.go:1217-1236 | names that are not blank are put into the metadata trimmed, a logical route that is there stays, and so does every other entry |
| RouteClosure.ExplicitTransportGiven | infra/communication/go/core/service_config.go:135-147 | a middleware's configured transport decides, its name where none is configured |
| RouteClosure.ChannelTransport | infra/communication/go/core/service_config.go:159-194 | a channel has the transport its route names, and NATS where it names none |
| RouteClosure.ExpandRoutes | infra/communication/go/core/service_config.go:1053-1123 | every expanded route and binding is normalised under its name; the pass fails exactly when one has no plan |
| RouteClosure.Build | infra/communication/go/core/service_config.go:114-133 | a successful build is related to its configuration as the two passes say; a failed one has a middleware, route or channel the passes must refuse |
| RouteClosure.PassesAgree | infra/communication/go/core/service_config.go:642-702 | the normalising pass writes the very plan the default-middleware pass computed |
| RouteClosure.Closure | infra/communication/go/core/service_config.go:135-222 | after a successful build without name collisions, every enabled high-level route without bindings names an existing bus and has its plan's transport; the bus has it too exactly when no enabled middleware of that name was configured with another |
| RouteClosure.BindingClosure | infra/communication/go/core/service_config.go:246-325 | for every build and every enabled high-level binding that keeps its name: its channel names its plan's runtime and has its plan's transport, and that bus exists exactly when an enabled middleware or a route the first pass refers to has the name; the bus then has the transport too exactly when no enabled middleware of the name was configured with another |
| RouteClosure.ReferredExactly | infra/communication/go/core/service_config.go:292-319 | without name collisions the first pass refers to exactly the names of configured routes without bindings, in any iteration order |
| RouteClosure.BindingHasNoBus | infra/communication/go/core/service_config.go:246-325 | a concrete build in which the condition fails: a binding's channel names a bus that does not exist |
| CppRouteClosure.AddReferencedDefaultMiddleware | infra/communication/cpp/core/service_config.hpp:1219-1303 | the table gains exactly the runtime names that considered nodes refer to, with their transports; what is configured stays |
| CppRouteClosure.ExpandRoutes | infra/communication/cpp/core/service_config.hpp:1714-1857 | every enabled node gives its channel and every channel comes from a node; the pass fails only for a node without channel |
| CppRouteClosure.Load | infra/communication/cpp/core/service_config.hpp:1859-1875 | loading is both passes over topics and services |
| CppRouteClosure.Closure | infra/communication/cpp/core/service_config.hpp:1219-1303 | for every enabled high-level node of every route: its channel has its plan's runtime name and transport, and that middleware exists exactly when one is configured by the name or a node the first pass looks at refers to it; it then has the transport too exactly unless configured with another |
| CppRouteClosure.OneListCloses | infra/communication/cpp/core/service_config.hpp:1277-1302 | for nodes of a route that does not carry both lists, bindings included, the condition always holds |
| CppRouteClosure.BothListsEscape | infra/communication/cpp/core/service_config.hpp:1277-1302 | a concrete load in which the condition fails, by a route with both `middlewares` and bindings |
| CppRouteClosure.PlansAgree | infra/communication/cpp/core/service_config.hpp:803-1101 | for trimmed entries the C++ plan of a route is the Go plan, whatever kind, middleware, data and type |
| CppRouteClosure.TransportsAgree | infra/communication/cpp/core/service_config.hpp:55-97 | both languages give a trimmed transport name the same transport, except that only C++ has a default for none |
| CppRouteClosure.SpacedNameDiffers | infra/communication/cpp/core/service_config.hpp:966-985 | a name with a space before it is a plan in Go and an error in C++ |
| CppRouteClosure.MergedNodeLaws | infra/communication/cpp/core/service_config.hpp:705-730 | merging an empty binding drops the nested lists and nothing else, merging into an empty base gives the binding, and merging is associative |
| RouteAgreement.ReferencesAgree | infra/communication/cpp/core/service_config.hpp:1219-1303 | for one tidy entry without bindings both languages' first passes refer to the same middleware by the same plan; where C++ stops with an error, Go refers to nothing |
| RouteAgreement.NormalizedAgree | infra/communication/cpp/core/service_config.hpp:1131-1217 | and both second passes fill in the same transport, middleware, metadata and adapter, or both fail |
| RouteAgreement.SinglesAgree | infra/communication/go/core/service_config.go:327-363 | an item of a list of middlewares is the same in both languages and refers to its own middleware |
| RouteAgreement.NamesAgree | infra/communication/cpp/core/service_config.hpp:1808-1857 | and has the same name in both |
| RouteAgreement.ChannelTransportsAgree | infra/communication/cpp/core/service_config.hpp:1714-1806 | a C++ channel has the transport its node names, as Go reads the name, and NATS where it names none |
| RouteAgreement.AdapterReadAlike | infra/communication/cpp/core/routing.hpp:49-60 | the C++ fabric reads the adapter from the metadata as the Go configuration does |
| BusSelection.ShouldCreateMiddlewareBus | infra/communication/cpp/core/routing.hpp:107-138 | the loops decide whether the bus is not in-process and, if ROS2, claimed by an endpoint of an enabled route |
| BusSelection.FromConfigs | infra/communication/cpp/core/routing.hpp:153-180 | the fabric has exactly those buses, or the first unregistered transport stops it |
| BusSelection.CommunicationFabric.BindEndpoint | infra/communication/cpp/core/routing.hpp:262-288 | the adapter error, no bus, the named bus, or the lookup error |
| BusSelection.CommunicationFabric.BusNameFor | infra/communication/cpp/core/routing.hpp:290-304 | runtime name, then middleware name, then the first bus of the transport |
| BusSelection.LookupFindsBus | infra/communication/cpp/core/routing.hpp:72-138 | an endpoint whose bus is configured and not in-process is bound to it in every fabric that routes it, exactly when the bus is not ROS2 or the endpoint is ROS2 and the metadata that decides is not blank |
| BusSelection.NonBlankMetadata | infra/communication/cpp/core/routing.hpp:290-304 | with non-blank middleware metadata the condition is that a ROS2 bus is asked for by a ROS2 endpoint |
| BusSelection.AdapterCases | infra/communication/cpp/core/routing.hpp:49-70 | a ROS2 endpoint with an adapter either uses the runtime bus or has an unsupported adapter, never both |

## Left out

- Aes.ExpandKey: excludes keys of 17 to 19 and 33 to 35 bytes, which pass the code's word count and then make its first loop read past the key; derived keys have 16 or 32 bytes.
- Gcm.AesGcmEncrypt: excludes the same key lengths, for the same reason.
- Gcm.AesGcmDecrypt: excludes the same key lengths, for the same reason.
- SecureBus.BusTransparent: speaks of runs in which no sender sends 2^64 messages, after which the number in the envelope wraps.
- SecureBus.RpcTransparent: speaks of the same runs, for the same reason.
- SecureBus.DuplicateRefusedExactly: speaks of the same runs, for the same reason.
- RouteClosure.Closure: asks that no two items of one source map share an expanded name, since Go then keeps an arbitrary one.
- RouteAgreement.ReferencesAgree: speaks of entries without bindings, without surrounding space and without an empty payload entry, since only Go trims and C++ tells an empty entry from none.
- RouteAgreement.NormalizedAgree: speaks of the same entries, for the same reason, and not of the payload, whose default format is C++'s own.
- RouteClosure.MiddlewareConfigs: does not model the options of buses, which nothing else here depends on.
- RouteClosure.Build: does not model addresses, local endpoints, queue sizes and timeouts of the built routes.
- CppRouteClosure.ExpandRoutes: does not model addresses, local endpoints, queue sizes and timeouts of the added routes.
- CppRouteClosure.Load: does not model security profiles, public catalogs and middleware options.
- BusSelection.CommunicationFabric.BindEndpoint: does not model the channel it builds and the security binding it adds, only which bus it binds.
- Go's AEAD, SHA-256 and key derivation are abstract functions with their inverse and length laws; the concrete algorithms are those of the C++ codec.
- Randomness, clocks and the environment are inputs: nonces, sender ids, the time stamp, clock readings in probe frames, environment values.
- Wall-clock durations: every wait may end in a timeout at any moment.
- The Go call without a session (requestWithEphemeral) and DDS discovery waits; the byte client is the network of the step systems.
- Mutexes of the codec and the replay window: their methods are atomic here.
- Servers that answer twice or out of order, and other clients on the response topic.
- Secured RPC of the C++ fabric, whose client binds by its own endpoint, and security binding inside BindEndpoint.
- Map-valued options of buses, QoS and address defaults, compatibility errors and the metadata of codecs and adapters: the route closures take them as functions that never write `middleware.runtime`.
- Route metadata of the C++ loader is flat; nested metadata maps that flatten to one key are not modelled.
- The base64 alphabet and the substitution table are written as case distinctions instead of array lookups.
- Text is ASCII where the source lowers case or trims, except in the YAML parser, which knows the white space of JavaScript.
- JavaScript numbers are the text they are read from, object identity is an index into a heap, and the key `__proto__` is like any other.
- Quoted scalars, empty containers written {} and [], and lists flush with their key are parsed by the model but not in the printed subset.
- Public interface catalogs, fanout, adapters, sockets, ROS2 and OpenTelemetry code, terminal UI and dashboards.
