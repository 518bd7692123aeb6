/** The test hasher providers: a provider owns one call log shared by every hasher it
    mints; an identity provider mints echo hashers, any other provider mints hashers
    backed by a named message digest. */
module HasherProviders {
  import opened JavaBytes
  import opened HashLog

  /** Which hashers a provider mints, fixed when the provider is made. */
  datatype Kind = Identity | DigestBacked(algorithm: string)

  /** The platform's message-digest registry, which this model cannot see: which
      algorithm names it knows, and the digest each algorithm computes. */
  datatype Jca = Jca(supports: string -> bool, digest: (string, seq<Byte>) -> seq<Byte>)

  datatype HashError = UnsupportedAlgorithm(algorithm: string)

  datatype Result<T> = Ok(value: T) | Err(error: HashError)

  /** A hasher minted by a provider. */
  datatype AnyHasher = Echo(echo: IdentityHasher) | Backed(backed: DigestHasher)

  /** The name that selects the identity provider. */
  const IDENTITY := "identity"

  class Provider {
    const kind: Kind
    /** The hash log: every `update` and `digest` entry written by this provider's hashers. */
    var log: seq<LogEntry>

    constructor (kind: Kind)
      ensures this.kind == kind && log == []
    {
      this.kind := kind;
      log := [];
    }

    /** Appends one entry tagged `tag` holding `b & 0xFF` for each byte `b` of `hash`. */
    method AddHashToLog(tag: Tag, hash: array<Byte>)
      modifies this
      ensures log == old(log) + [LogEntry(tag, Payload(hash[..]))]
    {
      var node: seq<int> := [];
      for i := 0 to hash.Length
        invariant |node| == i
        invariant forall k :: 0 <= k < i ==> node[k] == Unsigned(hash[k])
      {
        node := node + [Unsigned(hash[i])];
      }
      assert node == Payload(hash[..]);
      log := log + [LogEntry(tag, node)];
    }

    /** The log as it stands. */
    method GetHashLog() returns (entries: seq<LogEntry>)
      ensures entries == log
    {
      entries := log;
    }

    /** A fresh hasher writing into this provider's log: an echo hasher for the identity
        provider; otherwise a hasher for the provider's algorithm, or an error when the
        registry does not know that algorithm. */
    method NewHasher(jca: Jca) returns (r: Result<AnyHasher>)
      ensures kind.Identity? ==>
        r.Ok? && r.value.Echo? && fresh(r.value.echo) &&
        r.value.echo.provider == this && r.value.echo.buffer == []
      ensures kind.DigestBacked? ==>
        if jca.supports(kind.algorithm) then
          r.Ok? && r.value.Backed? && fresh(r.value.backed) &&
          r.value.backed.provider == this && r.value.backed.algorithm == kind.algorithm &&
          r.value.backed.jca == jca && r.value.backed.fed == []
        else
          r == Err(UnsupportedAlgorithm(kind.algorithm))
    {
      match kind
      case Identity =>
        var h := new IdentityHasher(this);
        r := Ok(Echo(h));
      case DigestBacked(algorithm) =>
        if jca.supports(algorithm) {
          var h := new DigestHasher(this, algorithm, jca);
          r := Ok(Backed(h));
        } else {
          r := Err(UnsupportedAlgorithm(algorithm));
        }
    }
  }

  /** The provider for `algorithm`: the identity provider exactly for "identity", a
      digest-backed provider for every other name; its log starts empty. */
  method GetInstance(algorithm: string) returns (p: Provider)
    ensures fresh(p) && p.log == []
    ensures p.kind.Identity? <==> algorithm == IDENTITY
    ensures p.kind.DigestBacked? ==> p.kind.algorithm == algorithm
  {
    if algorithm == IDENTITY {
      p := new Provider(Identity);
    } else {
      p := new Provider(DigestBacked(algorithm));
    }
  }

  /** Copies `s` into a fresh Java byte array. */
  method ToArray(s: seq<Byte>) returns (a: array<Byte>)
    ensures fresh(a) && a[..] == s
  {
    a := new Byte[|s|](i requires 0 <= i < |s| => s[i]);
  }

  /** The echo hasher: its digest is the bytes it was fed, unchanged. */
  class IdentityHasher {
    const provider: Provider
    /** The growable output stream `update` writes into. */
    var buffer: seq<Byte>

    constructor (provider: Provider)
      ensures this.provider == provider && buffer == []
    {
      this.provider := provider;
      buffer := [];
    }

    /** Logs `bytes` as an `update` entry, then appends them to the buffer. */
    method Update(bytes: array<Byte>)
      modifies this, provider
      ensures provider.log == old(provider.log) + [LogEntry(Tag.Update, Payload(bytes[..]))]
      ensures buffer == old(buffer) + bytes[..]
    {
      provider.AddHashToLog(Tag.Update, bytes);
      buffer := buffer + bytes[..];
    }

    /** Returns a copy of the buffer, empties the buffer and logs the copy as a `digest`
        entry. */
    method Digest() returns (r: array<Byte>)
      modifies this, provider
      ensures fresh(r) && r[..] == old(buffer)
      ensures buffer == []
      ensures provider.log == old(provider.log) + [LogEntry(Tag.Digest, Payload(r[..]))]
    {
      r := ToArray(buffer);
      buffer := [];
      provider.AddHashToLog(Tag.Digest, r);
    }
  }

  /** A hasher computing the named message digest; only its `digest` calls are logged. */
  class DigestHasher {
    const provider: Provider
    const algorithm: string
    const jca: Jca
    /** The message digest's running state: the bytes fed to it since its last reset. */
    var fed: seq<Byte>

    constructor (provider: Provider, algorithm: string, jca: Jca)
      ensures this.provider == provider && this.algorithm == algorithm && this.jca == jca
      ensures fed == []
    {
      this.provider := provider;
      this.algorithm := algorithm;
      this.jca := jca;
      fed := [];
    }

    /** Feeds `bytes` to the message digest; writes nothing to the log. */
    method Update(bytes: array<Byte>)
      modifies this
      ensures unchanged(provider)
      ensures fed == old(fed) + bytes[..]
    {
      fed := fed + bytes[..];
    }

    /** Completes the message digest, which resets it, logs the hash as a `digest` entry
        and returns it. */
    method Digest() returns (r: array<Byte>)
      modifies this, provider
      ensures fresh(r) && r[..] == jca.digest(algorithm, old(fed))
      ensures fed == []
      ensures provider.log == old(provider.log) + [LogEntry(Tag.Digest, Payload(r[..]))]
    {
      r := ToArray(jca.digest(algorithm, fed));
      fed := [];
      provider.AddHashToLog(Tag.Digest, r);
    }
  }

  /** Makes the calls `calls` on a fresh identity hasher, as the hashing reader does: the
      log grows by the identity trace of `calls`, and the hasher is left holding the
      bytes fed since the last `digest`. */
  method DriveIdentity(h: IdentityHasher, calls: seq<Call>)
    requires h.buffer == []
    modifies h, h.provider
    ensures h.provider.log == old(h.provider.log) + IdentityTrace(calls)
    ensures h.buffer == Pending(calls)
  {
    ghost var start := h.provider.log;
    for i := 0 to |calls|
      invariant h.buffer == Pending(calls[..i])
      invariant h.provider.log == start + IdentityTrace(calls[..i])
    {
      assert calls[..i + 1][..i] == calls[..i];
      match calls[i]
      case UpdateCall(bytes) =>
        var a := ToArray(bytes);
        h.Update(a);
      case DigestCall =>
        var d := h.Digest();
    }
    assert calls[..|calls|] == calls;
  }

  /** Makes the calls `calls` on a fresh digest-backed hasher, as the hashing reader does:
      the log grows by the digest trace of `calls`. */
  method DriveDigest(h: DigestHasher, calls: seq<Call>)
    requires h.fed == []
    modifies h, h.provider
    ensures h.provider.log == old(h.provider.log) + DigestTrace(h.jca.digest, h.algorithm, calls)
    ensures h.fed == Pending(calls)
  {
    ghost var start := h.provider.log;
    for i := 0 to |calls|
      invariant h.fed == Pending(calls[..i])
      invariant h.provider.log == start + DigestTrace(h.jca.digest, h.algorithm, calls[..i])
    {
      assert calls[..i + 1][..i] == calls[..i];
      match calls[i]
      case UpdateCall(bytes) =>
        var a := ToArray(bytes);
        h.Update(a);
      case DigestCall =>
        var d := h.Digest();
    }
    assert calls[..|calls|] == calls;
  }

  /** Makes the provider for `algorithm`, mints one hasher from it and makes the calls
      `calls` on that hasher; the result is the provider's log afterwards, or the error
      `newHasher` raised. */
  method Run(jca: Jca, algorithm: string, calls: seq<Call>) returns (r: Result<seq<LogEntry>>)
    ensures algorithm == IDENTITY ==> r == Ok(IdentityTrace(calls))
    ensures algorithm != IDENTITY ==>
      r == if jca.supports(algorithm)
           then Ok(DigestTrace(jca.digest, algorithm, calls))
           else Err(UnsupportedAlgorithm(algorithm))
  {
    var p := GetInstance(algorithm);
    var made := p.NewHasher(jca);
    if made.Err? {
      return Err(made.error);
    }
    match made.value
    case Echo(h) =>
      assert h.provider == p && p.log == [];
      DriveIdentity(h, calls);
      assert p.log == IdentityTrace(calls);
      r := Ok(p.log);
    case Backed(h) =>
      assert h.provider == p && p.log == [];
      DriveDigest(h, calls);
      assert p.log == DigestTrace(jca.digest, algorithm, calls);
      r := Ok(p.log);
  }

  /** Two hashers minted by one identity provider, used in turn, whatever the registry:
      each has its own buffer, so each digest returns its own hasher's bytes, and both
      write into the one log, which records the four calls in call order. */
  method Interleaved(jca: Jca, a: seq<Byte>, b: seq<Byte>) returns (da: seq<Byte>, db: seq<Byte>, log: seq<LogEntry>)
    ensures da == a && db == b
    ensures log == [LogEntry(Update, Payload(a)), LogEntry(Update, Payload(b)),
                    LogEntry(Digest, Payload(a)), LogEntry(Digest, Payload(b))]
  {
    var p := GetInstance(IDENTITY);
    var first := p.NewHasher(jca);
    var second := p.NewHasher(jca);
    var h1 := first.value.echo;
    var h2 := second.value.echo;
    var aa := ToArray(a);
    var ba := ToArray(b);
    h1.Update(aa);
    h2.Update(ba);
    var r1 := h1.Digest();
    var r2 := h2.Digest();
    da, db := r1[..], r2[..];
    log := p.GetHashLog();
  }
}
