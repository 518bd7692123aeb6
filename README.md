# Test hasher providers of ion-hash-java, modelled in Dafny

ion-hash-java tests its hashing reader with instrumented hasher providers
(`TestIonHasherProviders`). A provider owns one hash log. It mints hashers, and all of
them append to that one log:

- `getInstance("identity")` returns a provider of *identity* hashers. Their `update`
  logs its bytes and appends them to a growable byte buffer. Their `digest` takes a copy
  of the buffer, empties the buffer, logs the copy and returns it.
- `getInstance(name)` for any other `name` returns a provider of hashers backed by the
  platform message digest `name`. Their `update` only feeds the digest. Their `digest`
  logs the hash and returns it. `newHasher` fails when the platform does not know `name`.

Each log entry is tagged `update` or `digest`. It holds the bytes of the call, each
stored as the unsigned value `b & 0xFF`.

The model has three modules:

- `JavaBytes` (`java_bytes.dfy`): Java's signed `byte`, and `b & 0xFF` as `Unsigned`.
  `Payload` maps a byte sequence to log values, and `Restore` reads it back.
- `HashLog` (`hash_log.dfy`): the log entries, plus a reference semantics for a hasher
  as a function of the calls made on it:
  - `Pending`: the bytes a hasher holds;
  - `SinceLastDigest`: the `update` arguments since the last `digest`;
  - `IdentityTrace` and `DigestTrace`: the log each kind of hasher writes.

  The module also holds the lemmas about these functions.
- `HasherProviders` (`hasher_providers.dfy`):
  - the `Provider` class, whose `log` field is the shared hash log;
  - the `IdentityHasher` class, whose `buffer` field is the output stream;
  - the `DigestHasher` class, whose `fed` field is the message digest's running input;
  - `GetInstance`, the dispatch on the algorithm name;
  - `ToArray`, the fresh byte array a hasher's `digest` returns;
  - four client methods. `DriveIdentity` and `DriveDigest` make any sequence of calls on
    one hasher; their loop invariants tie the hasher's state and the log to `Pending`,
    `IdentityTrace` and `DigestTrace`. `Run` makes a provider and a hasher and drives it,
    and gets the whole log. `Interleaved` uses two hashers of one provider in turn.

The platform's digest registry (which names it knows, and what each algorithm computes)
cannot be seen from this file. It is the parameter `Jca`.

## Model

| member | source | states |
|---|---|---|
| `HasherProviders.Provider.constructor` | test/com/amazon/ionhash/TestIonHasherProviders.java:37-38 | A new provider has the given kind and an empty hash log. |
| `HasherProviders.Provider.AddHashToLog` | test/com/amazon/ionhash/TestIonHasherProviders.java:40-47 | The log becomes the old log followed by exactly one entry. That entry carries the given tag and `Payload(hash)`: one value `b & 0xFF` per byte, in order. Earlier entries are unchanged. |
| `HasherProviders.Provider.GetHashLog` | test/com/amazon/ionhash/TestIonHasherProviders.java:49-51 | Returns the provider's log as it stands. |
| `HasherProviders.GetInstance` | test/com/amazon/ionhash/TestIonHasherProviders.java:54-110 | The new provider has an empty log. It mints identity hashers exactly when the name is `"identity"`. For every other name it mints hashers backed by that name. |
| `HasherProviders.Provider.NewHasher` | test/com/amazon/ionhash/TestIonHasherProviders.java:57-108 | An identity provider always returns a fresh echo hasher with an empty buffer that writes into this provider's log. A digest-backed provider returns a fresh hasher for its algorithm with nothing fed yet, if the registry supports the algorithm. Otherwise it returns the error `UnsupportedAlgorithm(name)`. The log is untouched. |
| `HasherProviders.ToArray` | test/com/amazon/ionhash/TestIonHasherProviders.java:75 | Returns a freshly allocated array holding exactly the given bytes, as `toByteArray` copies the stream, so no caller shares the hasher's state. |
| `HasherProviders.IdentityHasher.constructor` | test/com/amazon/ionhash/TestIonHasherProviders.java:60-61 | A new echo hasher starts with an empty buffer and is bound to its provider. |
| `HasherProviders.IdentityHasher.Update` | test/com/amazon/ionhash/TestIonHasherProviders.java:63-71 | The log gains exactly one entry, `(update, Payload(bytes))`. The buffer becomes the old buffer followed by `bytes`. |
| `HasherProviders.IdentityHasher.Digest` | test/com/amazon/ionhash/TestIonHasherProviders.java:73-79 | Returns a fresh array holding exactly the old buffer. The buffer becomes empty. The log gains exactly one entry, `(digest, Payload(result))`. |
| `HasherProviders.DigestHasher.constructor` | test/com/amazon/ionhash/TestIonHasherProviders.java:89-90 | A new digest-backed hasher is bound to its provider, algorithm and registry, with nothing fed. |
| `HasherProviders.DigestHasher.Update` | test/com/amazon/ionhash/TestIonHasherProviders.java:92-95 | The provider, and so its log, is unchanged. The digest's running input grows by `bytes`. |
| `HasherProviders.DigestHasher.Digest` | test/com/amazon/ionhash/TestIonHasherProviders.java:97-102 | Returns the algorithm's hash of the bytes fed since the last reset. The digest state resets. The log gains exactly one entry, `(digest, Payload(hash))`. |
| `JavaBytes.Unsigned` | test/com/amazon/ionhash/TestIonHasherProviders.java:44 | `b & 0xFF` is the integer in 0..255 that is congruent to `b` modulo 256. It equals `b` for non-negative bytes. |
| `JavaBytes.Signed` | test/com/amazon/ionhash/TestIonHasherProviders.java:44 | Every value in 0..255 is `b & 0xFF` for some byte `b`, so `Unsigned` is onto 0..255. |
| `JavaBytes.Restore` | test/com/amazon/ionhash/TestIonHasherProviders.java:43-45 | Reading a log payload back gives bytes whose `b & 0xFF` values are the payload, position by position. |
| `JavaBytes.RestorePayload` | test/com/amazon/ionhash/TestIonHasherProviders.java:43-45 | A log payload records its bytes faithfully: every value is in 0..255, and the original bytes are recovered from it. |
| `HashLog.PendingIsSinceLastDigest` | test/com/amazon/ionhash/TestIonHasherProviders.java:61-79 | After any calls, an identity hasher's buffer is the concatenation, in order, of the `update` arguments since the last `digest`, or since construction if there was none. |
| `HashLog.PendingAfterUpdates` | test/com/amazon/ionhash/TestIonHasherProviders.java:64-79 | Start from a fresh hasher or one just digested. After `update(b1) … update(bn)` it holds `b1 + … + bn`. |
| `HashLog.DigestResets` | test/com/amazon/ionhash/TestIonHasherProviders.java:74-79 | After a `digest` the hasher holds nothing. The identity log after two `digest` calls in a row has one entry per call, and the last entry is a `digest` entry with the empty payload: the second `digest` returned the empty sequence. |
| `HashLog.IdentityTraceShape` | test/com/amazon/ionhash/TestIonHasherProviders.java:63-79 | An identity hasher's log has exactly one entry per call, in call order. `update(b)` is logged as `(update, Payload(b))`. `digest` is logged as `(digest, Payload(bytes accumulated before it))`. |
| `HashLog.DigestTraceShape` | test/com/amazon/ionhash/TestIonHasherProviders.java:92-102 | A digest-backed hasher's log holds only `digest` entries, exactly one per `digest` call. |
| `HasherProviders.DriveIdentity` | test/com/amazon/ionhash/TestIonHasherProviders.java:63-79 | Making any sequence of calls on a fresh identity hasher appends exactly `IdentityTrace(calls)` to its provider's log. The hasher is then left holding `Pending(calls)`. |
| `HasherProviders.DriveDigest` | test/com/amazon/ionhash/TestIonHasherProviders.java:92-102 | Making any sequence of calls on a fresh digest-backed hasher appends exactly `DigestTrace` of the calls under its algorithm to its provider's log. The digest is then left holding `Pending(calls)`. |
| `HasherProviders.Run` | test/com/amazon/ionhash/TestIonHasherProviders.java:54-110 | Make `getInstance(name)`, mint one hasher and make any sequence of calls on it. For `"identity"` the provider's log is then `IdentityTrace(calls)`. For any other name it is `DigestTrace` of the calls under that algorithm, or `UnsupportedAlgorithm(name)` when the registry does not know the name. |
| `HasherProviders.Interleaved` | test/com/amazon/ionhash/TestIonHasherProviders.java:57-81 | Two hashers of one identity provider are used in turn. Each digest returns only its own hasher's bytes. The one shared log records all four calls in true call order. |

## Left out

- The hash computation of `java.security.MessageDigest` (lines 90, 94, 99) is foreign
  library code. The registry is the parameter `Jca`, and `Jca.digest(name, bytes)` is an
  uninterpreted hash of the bytes fed since the last reset. The digest object's internal
  state is abstracted to those bytes (`DigestHasher.fed`).
- Lookup failure (lines 104-106) is the `Jca.supports` predicate. The wrapped
  `RuntimeException` is the result `Err(UnsupportedAlgorithm(name))`.
- The `IOException` branch of the identity `update` (lines 68-69) is left out. A write
  to an in-memory `ByteArrayOutputStream` does not fail.
- The Ion object model (`IonSystem`, `IonSexp`, `newInt`, type annotations; lines 17-19,
  37-46) is left out. The log is a sequence of `LogEntry(tag, values)`, and the
  annotation is the `Tag`.
- HasherProviders.Provider.AddHashToLog: the method name is the `Tag` `update` or
  `digest`, the only two names the hashers pass, not an arbitrary string.
- HasherProviders.Provider.GetHashLog: returns the log's value at the time of the call.
  The Java method returns the live `IonSexp` (line 50), where later appends stay visible
  through the returned reference. Any holder of that reference can also add, remove or
  clear entries. So the log is append-only, and earlier entries stay unchanged (as
  `AddHashToLog` states), only as long as this file's own methods are its only writers.
- The `IonHasher` interface has no common supertype here. `NewHasher` returns the
  closed variant `AnyHasher` (`Echo` or `Backed`).
- Java `null` arrays, and the `NullPointerException` they raise, are left out. Dafny
  arrays are never null.
- HasherProviders.GetInstance: a `null` algorithm name makes `switch (algorithm)`
  (line 55) throw `NullPointerException`. Dafny strings are never null, so this error is
  not modelled.
- HasherProviders.IdentityHasher.Update: Java arrays and `ByteArrayOutputStream` have
  `int`-bounded lengths, so `baos.write` (line 67) fails once the buffer passes about
  2^31 bytes. `IdentityHasher.buffer`, `DigestHasher.fed` and the log are unbounded
  sequences, so that overflow is not modelled.
- Use from several threads is left out. The provider is not synchronised and is meant
  for sequential use.
- The hashing reader that drives the hashers and the runner that compares logs are not
  part of this model. `DriveIdentity`, `DriveDigest`, `Run` and `Interleaved` stand in
  for them as clients.
