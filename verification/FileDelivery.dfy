/** Attachment delivery: what one task may send, how large that is in base64 (section 4 of RFC 4648), and why
    the client's replay buffer, sized from the same configuration, has room for it. */
module FileDelivery {
  import opened Options
  import opened ReplaySpec
  import opened ReplayProofs

  type Byte = x: nat | x < 0x100

  datatype Config = Config(maxBytes: nat, maxTotalBytes: nat, maxFiles: nat)

  const MIB := 1024 * 1024
  const MAX_PENDING := 512 * MIB

  predicate ValidConfig(c: Config) {
    1 <= c.maxBytes <= 8 * MIB && 1 <= c.maxTotalBytes <= 48 * MIB && 1 <= c.maxFiles <= 16
  }

  // ---------------------------------------------------------------- base64

  function Letter(n: nat): char
    requires n < 64
  {
    if n < 26 then ('A' as int + n) as char
    else if n < 52 then ('a' as int + n - 26) as char
    else if n < 62 then ('0' as int + n - 52) as char
    else if n == 62 then '+' else '/'
  }

  function Base64(b: seq<Byte>): (t: string)
    ensures |t| == 4 * ((|b| + 2) / 3)
    decreases |b|
  {
    if b == [] then ""
    else if |b| == 1 then [Letter(b[0] / 4), Letter(b[0] % 4 * 16), '=', '=']
    else if |b| == 2 then [Letter(b[0] / 4), Letter(b[0] % 4 * 16 + b[1] / 16), Letter(b[1] % 16 * 4), '=']
    else Group(b[0], b[1], b[2]) + Base64(b[3..])
  }

  function Group(x: Byte, y: Byte, z: Byte): (t: string)
    ensures |t| == 4
  {
    [Letter(x / 4), Letter(x % 4 * 16 + y / 16), Letter(y % 16 * 4 + z / 64), Letter(z % 64)]
  }

  /** The alphabet of section 4 of RFC 4648; a character stands for its index. */
  const ALPHABET :=
    "ABCDEFGHIJKLM" + "NOPQRSTUVWXYZ" + "abcdefghijklm" + "nopqrstuvwxyz" + "0123456789" + "+/"

  function Index(c: char, k: nat): nat
    requires k <= |ALPHABET|
    decreases |ALPHABET| - k
  {
    if k == |ALPHABET| || ALPHABET[k] == c then k else Index(c, k + 1)
  }

  function Value(c: char): nat {
    Index(c, 0)
  }

  /** Read text back: four characters are 24 bits, most significant first; padding cuts the last group short. */
  function Decode(t: string): seq<int>
    decreases |t|
  {
    if |t| < 4 then []
    else
      var bits := Value(t[0]) * 0x40000 + Value(t[1]) * 0x1000;
      if t[2] == '=' then [bits / 0x10000]
      else
        var more := bits + Value(t[2]) * 0x40;
        if t[3] == '=' then [more / 0x10000, more / 0x100 % 0x100]
        else
          var all := more + Value(t[3]);
          [all / 0x10000, all / 0x100 % 0x100, all % 0x100] + Decode(t[4..])
  }

  /** The encoder's letters are the alphabet's, each in its place. */
  lemma LetterAt(n: nat)
    requires n < 64
    ensures Letter(n) == ALPHABET[n]
  {}

  lemma LetterOnce(k: nat, n: nat)
    requires k < n < 64
    ensures Letter(k) != Letter(n) && Letter(n) != '=' && Letter(k) != '='
  {}

  lemma {:induction false} IndexOfLetter(n: nat, k: nat)
    requires k <= n < 64
    ensures Index(Letter(n), k) == n
    decreases n - k
  {
    LetterAt(k);
    if k < n {
      LetterOnce(k, n);
      IndexOfLetter(n, k + 1);
    }
  }

  lemma LetterValue(n: nat)
    requires n < 64
    ensures Value(Letter(n)) == n && Letter(n) != '='
  {
    IndexOfLetter(n, 0);
  }

  /** What is encoded is what decoding reads back, whatever the bytes. */
  lemma {:induction false} Base64Decodes(b: seq<Byte>)
    ensures Decode(Base64(b)) == b
    decreases |b|
  {
    if |b| == 0 {
      assert Base64(b) == "" && Decode("") == [];
    } else if |b| > 2 {
      Base64Decodes(b[3..]);
      GroupDecodes(b);
    } else {
      hide Decode, Letter;
      if |b| == 1 { OneByte(b[0]); } else { TwoBytes(b[0], b[1]); }
    }
  }

  lemma GroupDecodes(b: seq<Byte>)
    requires |b| > 2 && Decode(Base64(b[3..])) == b[3..]
    ensures Decode(Base64(b)) == b
  {
    hide Decode, Group;
    ThreeBytes(b[0], b[1], b[2], Base64(b[3..]));
    assert Base64(b) == Group(b[0], b[1], b[2]) + Base64(b[3..]);
    hide Base64;
    assert b == [b[0], b[1], b[2]] + b[3..];
  }

  lemma OneByte(x: Byte)
    ensures Decode([Letter(x / 4), Letter(x % 4 * 16), '=', '=']) == [x]
  {
    hide Letter, Value;
    LetterValue(x / 4);
    LetterValue(x % 4 * 16);
    Bits(x, 0, 0);
  }

  lemma TwoBytes(x: Byte, y: Byte)
    ensures Decode([Letter(x / 4), Letter(x % 4 * 16 + y / 16), Letter(y % 16 * 4), '=']) == [x, y]
  {
    hide Letter, Value;
    LetterValue(x / 4);
    LetterValue(x % 4 * 16 + y / 16);
    LetterValue(y % 16 * 4);
    Bits(x, y, 0);
  }

  lemma ThreeBytes(x: Byte, y: Byte, z: Byte, rest: string)
    ensures Decode(Group(x, y, z) + rest) == [x, y, z] + Decode(rest)
  {
    hide Letter, Value;
    LetterValue(x / 4);
    LetterValue(x % 4 * 16 + y / 16);
    LetterValue(y % 16 * 4 + z / 64);
    LetterValue(z % 64);
    Bits(x, y, z);
    var t := Group(x, y, z) + rest;
    assert t[4..] == rest;
  }

  /** The bits of three bytes, taken apart six by six and put together again. */
  lemma Bits(x: Byte, y: Byte, z: Byte)
    ensures var all := x / 4 * 0x40000 + (x % 4 * 16 + y / 16) * 0x1000 + (y % 16 * 4 + z / 64) * 0x40 + z % 64;
            all / 0x10000 == x && all / 0x100 % 0x100 == y && all % 0x100 == z
  {
    var all := x / 4 * 0x40000 + (x % 4 * 16 + y / 16) * 0x1000 + (y % 16 * 4 + z / 64) * 0x40 + z % 64;
    assert all == x * 0x10000 + y * 0x100 + z;
    assert all / 0x100 == x * 0x100 + y;
  }

  // ---------------------------------------------------------------- a task's budget

  function Total(files: seq<seq<Byte>>): nat {
    if files == [] then 0 else Total(files[..|files|-1]) + |files[|files|-1]|
  }

  function EncodedTotal(files: seq<seq<Byte>>): nat {
    if files == [] then 0 else EncodedTotal(files[..|files|-1]) + |Base64(files[|files|-1])|
  }

  /** What one task can have delivered. */
  ghost predicate Deliverable(c: Config, files: seq<seq<Byte>>) {
    && |files| <= c.maxFiles && Total(files) <= c.maxTotalBytes
    && forall f :: f in files ==> |f| <= c.maxBytes
  }

  lemma OneMoreFile(c: Config, files: seq<seq<Byte>>, b: seq<Byte>)
    ensures Total(files + [b]) == Total(files) + |b|
    ensures Deliverable(c, files) ==>
              (Deliverable(c, files + [b]) <==>
                |files| < c.maxFiles && Total(files) + |b| <= c.maxTotalBytes && |b| <= c.maxBytes)
  {
    assert (files + [b])[..|files|] == files;
    assert b in files + [b];
  }

  datatype Request = Request(valid: bool, nameValid: bool, aborted: bool)
  /** The reader in the container: it failed, it refused, or it returned text that decodes to `buffer`. */
  datatype Read = Failed | AbortedLate | Refused | Content(buffer: seq<Byte>, text: string)
  datatype Outcome = Delivered(size: nat) | Rejected

  class CallerFileDelivery {
    const config: Config
    var total: nat
    var files: nat
    var cleanupConfirmed: bool
    /** The attachments emitted, in order. */
    ghost var emitted: seq<seq<Byte>>
    ghost var texts: seq<string>

    ghost predicate Valid()
      reads this
    {
      && total == Total(emitted) && files == |emitted| && Deliverable(config, emitted)
      && |texts| == |emitted| && forall i :: 0 <= i < |texts| ==> texts[i] == Base64(emitted[i])
    }

    constructor (config: Config)
      ensures Valid() && this.config == config && emitted == [] && cleanupConfirmed
    {
      this.config := config;
      total, files, cleanupConfirmed, emitted, texts := 0, 0, true, [], [];
    }

    lemma AtMost()
      requires Valid()
      ensures total <= config.maxTotalBytes
    {}

    /** One attachment; sends of a task run one after the other. A read that did not end cleanly leaves the
        container in doubt, and nothing is read from it again. */
    method Send(request: Request, read: Read) returns (r: Outcome)
      requires Valid()
      modifies this
      ensures Valid()
      ensures r.Delivered? <==>
                && !request.aborted && old(cleanupConfirmed) && request.valid && request.nameValid && read.Content?
                && read.text == Base64(read.buffer) && Deliverable(config, old(emitted) + [read.buffer])
                && |old(emitted)| < config.maxFiles && Total(old(emitted)) < config.maxTotalBytes && config.maxBytes > 0
      ensures r.Delivered? ==> Decode(read.text) == read.buffer
      ensures r.Delivered? ==>
              r.size == |read.buffer| && emitted == old(emitted) + [read.buffer] && texts == old(texts) + [read.text]
      ensures r.Rejected? ==>
              emitted == old(emitted) && texts == old(texts) && total == old(total) && files == old(files)
      // A reader that failed, and only that, puts the container in doubt; it runs only within the limits.
      ensures cleanupConfirmed <==>
                old(cleanupConfirmed) && !(read.Failed? && !request.aborted && request.valid
                  && |old(emitted)| < config.maxFiles && Total(old(emitted)) < config.maxTotalBytes
                  && config.maxBytes > 0)
    {
      hide Base64, Decode, Total;
      if read.Content? { OneMoreFile(config, emitted, read.buffer); }
      AtMost();
      hide Deliverable;
      if request.aborted || !cleanupConfirmed || !request.valid || files >= config.maxFiles { return Rejected; }
      var remaining :=
        if config.maxBytes < config.maxTotalBytes - total then config.maxBytes else config.maxTotalBytes - total;
      if remaining <= 0 { return Rejected; }
      match read
      case Failed =>
        cleanupConfirmed := false;
        return Rejected;
      case AbortedLate => return Rejected;
      case Refused => return Rejected;
      case Content(buffer, text) =>
        if |buffer| > remaining || Base64(buffer) != text { return Rejected; }
        if !request.nameValid { return Rejected; }
        Base64Decodes(buffer);
        files := files + 1;
        total := total + |buffer|;
        emitted := emitted + [buffer];
        texts := texts + [text];
        return Delivered(|buffer|);
    }
  }

  // ---------------------------------------------------------------- the retention bound

  function Payload(c: Config): nat {
    if c.maxTotalBytes < c.maxBytes * c.maxFiles then c.maxTotalBytes else c.maxBytes * c.maxFiles
  }

  function EncodedBound(c: Config): nat {
    4 * ((Payload(c) + 2 * c.maxFiles) / 3)
  }

  function PerExecution(c: Config): nat {
    EncodedBound(c) + c.maxFiles * 64 * 1024 + MIB
  }

  /** `callerFilePendingBytes`: nothing without a configuration; an error over 512 MiB or for bad numbers. */
  datatype Budget = Unset | Ceiling(bytes: nat) | Error

  function CallerFilePendingBytes(config: Option<Config>, maxExecutions: int): Budget {
    if config.None? then Unset
    else if !ValidConfig(config.value) || !(1 <= maxExecutions <= 32) then Error
    else
      var wanted := maxExecutions * PerExecution(config.value);
      var budget := if wanted < 4 * MIB then 4 * MIB else wanted;
      if budget > MAX_PENDING then Error else Ceiling(budget)
  }

  /** When there is a byte limit, and which: an error exactly for numbers out of range or a limit over 512 MiB; never
      less than 4 MiB; otherwise a full share for every execution. */
  lemma PendingBytesExactly(config: Option<Config>, maxExecutions: int)
    ensures var b := CallerFilePendingBytes(config, maxExecutions);
            && (b == Unset <==> config == None)
            && (b == Error <==>
                  && config.Some?
                  && (config.value.maxBytes == 0 || config.value.maxBytes > 8388608
                      || config.value.maxTotalBytes == 0 || config.value.maxTotalBytes > 50331648
                      || config.value.maxFiles == 0 || config.value.maxFiles > 16
                      || maxExecutions <= 0 || maxExecutions > 32
                      || maxExecutions * PerExecution(config.value) > 536870912))
            && (b.Ceiling? ==> 4194304 <= b.bytes <= 536870912)
            && (b.Ceiling? && maxExecutions * PerExecution(config.value) > 4194304 ==>
                  b.bytes == maxExecutions * PerExecution(config.value))
            && (b.Ceiling? && maxExecutions * PerExecution(config.value) <= 4194304 ==> b.bytes == 4194304)
  {
    if config.Some? { hide PerExecution; }
  }

  /** The share of an execution whose files are all as large as they may be is what they take, encoded, with 64 KiB
      for each and 1 MiB besides, up to the rounding of one group. */
  lemma ShareIsTight(c: Config)
    requires ValidConfig(c)
    ensures var payload := if c.maxTotalBytes < c.maxBytes * c.maxFiles then c.maxTotalBytes
                           else c.maxBytes * c.maxFiles;
            && 3 * (PerExecution(c) - c.maxFiles * 65536 - 1048576) <= 4 * (payload + 2 * c.maxFiles)
            && 4 * (payload + 2 * c.maxFiles) < 3 * (PerExecution(c) - c.maxFiles * 65536 - 1048576) + 12
  {}

  lemma MulMonotone(a: nat, b: nat, c: nat)
    requires b <= c
    ensures a * b <= a * c && b * a <= c * a
  {}

  lemma OneFile(n: nat)
    ensures 3 * (4 * ((n + 2) / 3)) <= 4 * (n + 2)
  {}

  lemma {:induction false} EncodedTotalBound(files: seq<seq<Byte>>)
    ensures 3 * EncodedTotal(files) <= 4 * (Total(files) + 2 * |files|)
    ensures EncodedTotal(files) % 4 == 0
  {
    hide Base64;
    if files != [] {
      EncodedTotalBound(files[..|files|-1]);
      OneFile(|files[|files|-1]|);
    }
  }

  lemma {:induction false} TotalBound(files: seq<seq<Byte>>, each: nat)
    requires forall f :: f in files ==> |f| <= each
    ensures Total(files) <= |files| * each
  {
    if files != [] {
      var front := files[..|files|-1];
      assert files[|files|-1] in files && forall f :: f in front ==> f in files;
      TotalBound(front, each);
      OneMore(|front|, each);
    }
  }

  lemma OneMore(n: nat, each: nat)
    ensures (n + 1) * each == n * each + each
  {}

  /** Everything a task may deliver fits, encoded, in the bound computed from its configuration: padding is
      paid for file by file. */
  lemma DeliveriesFit(c: Config, files: seq<seq<Byte>>)
    requires Deliverable(c, files)
    ensures EncodedTotal(files) <= EncodedBound(c)
  {
    hide EncodedTotal, Total;
    EncodedTotalBound(files);
    TotalBound(files, c.maxBytes);
    MulMonotone(c.maxBytes, |files|, c.maxFiles);
    FourThirds(EncodedTotal(files), Total(files) + 2 * |files|, Payload(c) + 2 * c.maxFiles);
  }

  lemma FourThirds(e: nat, x: nat, y: nat)
    requires 3 * e <= 4 * x && x <= y && e % 4 == 0
    ensures e <= 4 * (y / 3)
  {
    var q := e / 4;
    assert 3 * q <= y;
    assert q <= y / 3;
  }

  // ---------------------------------------------------------------- room in the replay buffer

  /** Bytes retained for one execution. */
  function Held(p: seq<Frame>, e: Exec): nat {
    if p == [] then 0 else Held(p[..|p|-1], e) + (if p[|p|-1].wire.exec == e then p[|p|-1].bytes else 0)
  }

  lemma {:induction false} HeldSplits(p: seq<Frame>, e: Exec)
    ensures Bytes(p) == Held(p, e) + Bytes(DropExec(p, e))
  {
    if p != [] {
      var q, f := p[..|p|-1], p[|p|-1];
      HeldSplits(q, e);
      if f.wire.exec == e { assert DropExec(p, e) == DropExec(q, e); }
      else { assert (DropExec(q, e) + [f])[..|DropExec(q, e)|] == DropExec(q, e); }
    }
  }

  lemma {:induction false} HeldDrop(p: seq<Frame>, x: Exec, e: Exec)
    ensures Held(DropExec(p, x), e) == if e == x then 0 else Held(p, e)
  {
    if p != [] {
      var q, f := p[..|p|-1], p[|p|-1];
      HeldDrop(q, x, e);
      if f.wire.exec == x { assert DropExec(p, x) == DropExec(q, x); }
      else { assert (DropExec(q, x) + [f])[..|DropExec(q, x)|] == DropExec(q, x); }
    }
  }

  lemma {:induction false} BytesByExecution(p: seq<Frame>, execs: set<Exec>, each: nat)
    requires forall f :: f in p ==> f.wire.exec in execs
    requires forall e :: e in execs ==> Held(p, e) <= each
    ensures Bytes(p) <= |execs| * each
    decreases |execs|
  {
    hide Bytes, Held, DropExec;
    if execs == {} {
      if p != [] { SomeFrame(p); }
      NoBytes();
    } else {
      var e :| e in execs;
      var rest := execs - {e};
      HeldSplits(p, e);
      forall f | f in DropExec(p, e) ensures f.wire.exec in rest { InDropExec(p, e, f); }
      forall x | x in rest ensures Held(DropExec(p, e), x) <= each { HeldDrop(p, e, x); }
      BytesByExecution(DropExec(p, e), rest, each);
      OneMore(|rest|, each);
    }
  }

  lemma SomeFrame(p: seq<Frame>)
    requires p != []
    ensures p[0] in p
  {}

  lemma NoBytes()
    ensures Bytes([]) == 0
  {}

  lemma AllowanceFits(c: Config, held: nat, files: seq<seq<Byte>>)
    requires WithinAllowance(c, held, files)
    ensures held <= PerExecution(c)
  {
    hide EncodedTotal, EncodedBound, Total;
    DeliveriesFit(c, files);
  }

  /** What an execution retains: the attachments of one allowed history, 64 KiB of metadata for each, and at
      most 1 MiB of other frames. */
  ghost predicate WithinAllowance(c: Config, held: nat, files: seq<seq<Byte>>) {
    Deliverable(c, files) && held <= EncodedTotal(files) + |files| * 64 * 1024 + MIB
  }

  /** With the byte limit that the configuration asks for, a frame that keeps its execution within its allowance
      never trips the client's byte overflow, however many other executions are retained in full. */
  lemma BatchesNeverOverflow(config: Config, maxExecutions: int, lim: Limits, c: Client, f: Frame,
                             execs: set<Exec>, batch: map<Exec, seq<seq<Byte>>>)
    requires CallerFilePendingBytes(Some(config), maxExecutions) == Ceiling(lim.bytes)
    requires c.pendingBytes == Bytes(c.pending)
    requires |execs| <= maxExecutions && f.wire.exec in execs && forall g :: g in c.pending ==> g.wire.exec in execs
    requires forall e :: e in execs ==> e in batch && WithinAllowance(config, Held(c.pending + [f], e), batch[e])
    ensures f.bytes <= lim.bytes && c.pendingBytes + f.bytes <= lim.bytes
    ensures Overflows(lim, c, f.bytes) <==> TooLarge(c, f.bytes) || |c.pending| >= lim.frames
  {
    hide Bytes, Held, WithinAllowance, PerExecution;
    var p := c.pending + [f];
    var each := PerExecution(config);
    forall e | e in execs ensures Held(p, e) <= each { AllowanceFits(config, Held(p, e), batch[e]); }
    BytesByExecution(p, execs, each);
    MulMonotone(each, |execs|, maxExecutions);
    BytesAppend(c.pending, f);
  }
}
