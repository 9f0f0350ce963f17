/** Uploading a cache entry in blocks: writes are buffered, full buffers are uploaded concurrently and
    out of order, and shutting down commits the list of blocks. What happens to an upload, and when,
    is up to the service. */
module BlobWriters {
  import opened Wrappers
  import opened EngineData

  type Bytes = seq<byte>

  const BLOCK_SIZE: nat := 32 * 1024 * 1024
  const MINIMUM_BLOCK_SIZE: nat := 5 * 1024 * 1024
  const CONCURRENT_UPLOADS: nat := 4
  const MAX_ID: nat := 65535
  const MAX_BYTES: nat := 0xFFFF_FFFF_FFFF_FFFF

  function Min(a: nat, b: nat): nat {
    if a <= b then a else b
  }

  function Concat(blocks: seq<Bytes>): Bytes {
    if blocks == [] then [] else Concat(blocks[..|blocks| - 1]) + blocks[|blocks| - 1]
  }

  lemma ConcatLast(blocks: seq<Bytes>, b: Bytes)
    ensures Concat(blocks + [b]) == Concat(blocks) + b
  {
    assert (blocks + [b])[..|blocks|] == blocks;
  }

  /** All blocks hold something and fit the maximum; all but the last reach the minimum. */
  ghost predicate Sized(blocks: seq<Bytes>) {
    && (forall i :: 0 <= i < |blocks| ==> 0 < |blocks[i]| <= BLOCK_SIZE)
    && (forall i :: 0 <= i < |blocks| - 1 ==> |blocks[i]| >= MINIMUM_BLOCK_SIZE)
  }

  lemma {:induction false} ManyBlocksAreLarge(blocks: seq<Bytes>)
    requires forall i :: 0 <= i < |blocks| ==> |blocks[i]| >= MINIMUM_BLOCK_SIZE
    ensures |Concat(blocks)| >= |blocks| * MINIMUM_BLOCK_SIZE
    decreases |blocks|
  {
    if blocks != [] {
      ManyBlocksAreLarge(blocks[..|blocks| - 1]);
    }
  }

  /** 10 GiB, all that a repository may store, takes at most 2048 blocks. */
  lemma BlocksOfARepository(blocks: seq<Bytes>)
    requires Sized(blocks) && |Concat(blocks)| <= 10 * 1024 * 1024 * 1024
    ensures |blocks| <= 2048
  {
    if blocks != [] {
      ManyBlocksAreLarge(blocks[..|blocks| - 1]);
    }
  }

  /** The concatenation of what the service stores under the ids below `n`. */
  function Assemble(service: map<nat, Bytes>, n: nat): Bytes
    requires forall i :: 0 <= i < n ==> i in service
  {
    if n == 0 then [] else Assemble(service, n - 1) + service[n - 1]
  }

  lemma {:induction false} AssembleBlocks(service: map<nat, Bytes>, blocks: seq<Bytes>, n: nat)
    requires n <= |blocks| && forall i :: 0 <= i < n ==> i in service && service[i] == blocks[i]
    ensures Assemble(service, n) == Concat(blocks[..n])
    decreases n
  {
    if n > 0 {
      AssembleBlocks(service, blocks, n - 1);
      assert blocks[..n][..n - 1] == blocks[..n - 1];
    }
  }

  lemma {:induction false} ConcatSplit(xs: seq<Bytes>, ys: seq<Bytes>)
    ensures Concat(xs + ys) == Concat(xs) + Concat(ys)
    decreases |ys|
  {
    if ys == [] {
      assert xs + ys == xs;
    } else {
      var before, last := ys[..|ys| - 1], ys[|ys| - 1];
      ConcatSplit(xs, before);
      assert xs + ys == (xs + before) + [last] && ys == before + [last];
      ConcatLast(xs + before, last);
      ConcatLast(before, last);
      assert (Concat(xs) + Concat(before)) + last == Concat(xs) + (Concat(before) + last);
    }
  }

  /** Block ids are 16-bit numbers that stop at their maximum: the committed list is the whole content
      exactly up to 65535 blocks. */
  lemma CommittedIsWhole(blocks: seq<Bytes>)
    requires Sized(blocks)
    ensures Concat(blocks[..Min(|blocks|, MAX_ID)]) == Concat(blocks) <==> |blocks| <= 65535
  {
    hide Concat, Sized;
    if |blocks| <= MAX_ID {
      assert blocks[..|blocks|] == blocks;
    } else {
      var kept, lost := blocks[..MAX_ID], blocks[MAX_ID..];
      assert blocks == kept + lost;
      ConcatSplit(kept, lost);
      NotEmpty(blocks, lost);
    }
  }

  lemma NotEmpty(blocks: seq<Bytes>, some: seq<Bytes>)
    requires Sized(blocks) && some != [] && some[|some| - 1] in blocks
    ensures Concat(some) != []
  {
  }

  function Digits(n: nat, width: nat): (r: string)
    ensures |r| == width
  {
    if width == 0 then "" else Digits(n / 10, width - 1) + [('0' as int + n % 10) as char]
  }

  /** The text of a block id: a nil identifier and the index padded with zeros, 48 characters. */
  function BlockId(index: nat): (r: string)
    requires index <= MAX_ID
    ensures |r| == 48
  {
    "00000000-0000-0000-0000-000000000000" + Digits(index, 12)
  }

  /** The number that decimal digits stand for. */
  function DigitsValue(s: string): int {
    if s == "" then 0 else 10 * DigitsValue(s[..|s| - 1]) + (s[|s| - 1] as int - '0' as int)
  }

  /** The last twelve characters of a block id are its index in decimal, padded with zeros. */
  lemma BlockIdEndsInIndex(index: nat)
    requires index <= MAX_ID
    ensures BlockId(index)[..36] == "00000000-0000-0000-0000-000000000000"
    ensures DigitsValue(BlockId(index)[36..]) == index && forall i :: 36 <= i < 48 ==> '0' <= BlockId(index)[i] <= '9'
  {
    assert BlockId(index)[36..] == Digits(index, 12);
    TensGrow(5, 12);
    assert Tens(5) == 100000;
    DigitsAreDecimal(index, 12);
    assert forall i :: 36 <= i < 48 ==> BlockId(index)[i] == Digits(index, 12)[i - 36];
  }

  lemma {:induction false} DigitsAreDecimal(n: nat, width: nat)
    requires n < Tens(width)
    ensures DigitsValue(Digits(n, width)) == n && forall i :: 0 <= i < width ==> '0' <= Digits(n, width)[i] <= '9'
    decreases width
  {
    if width > 0 {
      DigitsAreDecimal(n / 10, width - 1);
      assert Digits(n, width)[..width - 1] == Digits(n / 10, width - 1);
    }
  }

  lemma {:induction false} DigitsInjective(a: nat, b: nat, width: nat, bound: nat)
    requires Digits(a, width) == Digits(b, width) && a < bound && b < bound && bound <= Tens(width)
    ensures a == b
    decreases width
  {
    if width > 0 {
      var x, y := Digits(a / 10, width - 1), Digits(b / 10, width - 1);
      assert Digits(a, width)[width - 1] == Digits(b, width)[width - 1];
      assert x == Digits(a, width)[..width - 1] && y == Digits(b, width)[..width - 1];
      DigitsInjective(a / 10, b / 10, width - 1, Tens(width - 1));
    }
  }

  function Tens(width: nat): nat {
    if width == 0 then 1 else 10 * Tens(width - 1)
  }

  /** Different blocks have different ids, all of one length. */
  lemma BlockIdsAreDistinct(a: nat, b: nat)
    requires a <= MAX_ID && b <= MAX_ID && BlockId(a) == BlockId(b)
    ensures a == b
  {
    assert Digits(a, 12) == BlockId(a)[36..] && Digits(b, 12) == BlockId(b)[36..];
    assert Tens(5) == 100000;
    TensGrow(5, 12);
    DigitsInjective(a, b, 12, 100000);
  }

  lemma {:induction false} TensGrow(a: nat, b: nat)
    requires a <= b
    ensures Tens(a) <= Tens(b)
    decreases b
  {
    if a < b { TensGrow(a, b - 1); }
  }

  datatype Upload = Upload(id: nat, data: Bytes)

  datatype Poll<+T> = Pending | Ready(value: T)

  /** What the network has to say when the uploads in flight are polled: none has ended, or one has, whose
      block may have arrived even if it was reported as failed. */
  datatype Wake = Running | Ended(which: nat, arrived: bool, ok: bool)

  /** What it has to say about a single request. */
  datatype Answer = Unanswered | Answered(ok: bool)

  /** What becomes of waiting for `n` uploads, the network being asked again and again. */
  function Drain(n: nat, wakes: nat -> Wake, k: nat): Poll<bool>
    decreases n
  {
    if n == 0 then Ready(true)
    else match wakes(k)
      case Running => Pending
      case Ended(_, _, ok) => if ok then Drain(n - 1, wakes, k + 1) else Ready(false)
  }

  /** Waiting ends well if every upload does, goes on only while one is running, and fails only with one. */
  lemma {:induction false} DrainIs(n: nat, wakes: nat -> Wake, k: nat)
    ensures Drain(n, wakes, k) == Ready(true) <==> forall i :: k <= i < k + n ==> wakes(i).Ended? && wakes(i).ok
    ensures Drain(n, wakes, k) == Pending ==> exists i :: k <= i < k + n && wakes(i).Running?
    ensures Drain(n, wakes, k) == Ready(false) ==> exists i :: k <= i < k + n && wakes(i).Ended? && !wakes(i).ok
    decreases n
  {
    if n > 0 { DrainIs(n - 1, wakes, k + 1); }
  }

  /** The result of a poll that waited. */
  ghost predicate Reports<E>(r: Poll<Result<(), E>>, d: Poll<bool>) {
    match d
    case Pending => r == Pending
    case Ready(ok) => r.Ready? && (r.value.Ok? <==> ok)
  }

  function Heard(a: Answer): Poll<bool> {
    match a
    case Unanswered => Pending
    case Answered(ok) => Ready(ok)
  }

  datatype Shutdown = Open | Flush | CommittingAzure | CommittingGithub | Shut

  /** How many steps of shutting down are left. */
  function Stages(s: Shutdown): nat {
    match s
    case Open => 4
    case Flush => 3
    case CommittingAzure => 2
    case CommittingGithub => 1
    case Shut => 0
  }

  /** The requests that end an upload, in the order they were issued. */
  datatype Request = CommitBlocks(count: nat) | Finalize(size: nat)

  /** The block with id `i` is on its way to the service or there. */
  ghost predicate Held(blocks: seq<Bytes>, uploads: seq<Upload>, service: map<nat, Bytes>, i: nat)
    requires i < |blocks|
  {
    Upload(i, blocks[i]) in uploads || (i in service && service[i] == blocks[i])
  }

  /** The upload carries the block that its id stands for; the last id may stand for many. */
  ghost predicate Cut(blocks: seq<Bytes>, u: Upload) {
    u.id <= MAX_ID && (u.id < MAX_ID ==> u.id < |blocks| && u.data == blocks[u.id])
  }

  lemma HeldAfterUpload(blocks: seq<Bytes>, uploads: seq<Upload>, service: map<nat, Bytes>, b: Bytes, i: nat)
    requires i <= |blocks| && i < MAX_ID && (i < |blocks| ==> Held(blocks, uploads, service, i))
    ensures Held(blocks + [b], uploads + [Upload(Min(|blocks|, MAX_ID), b)], service, i)
  {
    if i == |blocks| {
      assert (uploads + [Upload(i, b)])[|uploads|] == Upload(i, b);
    } else if Upload(i, blocks[i]) in uploads {
      assert Upload(i, (blocks + [b])[i]) in uploads;
    }
  }

  /** Every block is on its way or stored, unless something failed. */
  ghost predicate AllHeld(blocks: seq<Bytes>, uploads: seq<Upload>, service: map<nat, Bytes>, failed: bool) {
    && (failed || forall i :: 0 <= i < |blocks| && i < MAX_ID ==> Held(blocks, uploads, service, i))
    && (forall u :: u in uploads ==> Cut(blocks, u))
  }

  lemma AllAfterUpload(blocks: seq<Bytes>, uploads: seq<Upload>, service: map<nat, Bytes>, failed: bool, b: Bytes)
    requires AllHeld(blocks, uploads, service, failed)
    ensures AllHeld(blocks + [b], uploads + [Upload(Min(|blocks|, MAX_ID), b)], service, failed)
  {
    hide Held;
    if !failed {
      forall i | 0 <= i <= |blocks| && i < MAX_ID
        ensures Held(blocks + [b], uploads + [Upload(Min(|blocks|, MAX_ID), b)], service, i)
      {
        HeldAfterUpload(blocks, uploads, service, b, i);
      }
    }
    forall u | u in uploads ensures Cut(blocks + [b], u) {
      assert Cut(blocks, u);
    }
  }

  lemma SizedAfter(blocks: seq<Bytes>, b: Bytes)
    requires 0 < |b| <= BLOCK_SIZE && forall i :: 0 <= i < |blocks| ==> MINIMUM_BLOCK_SIZE <= |blocks[i]|
    requires Sized(blocks)
    ensures Sized(blocks + [b])
  {
  }

  lemma HeldAfterEnd(blocks: seq<Bytes>, uploads: seq<Upload>, service: map<nat, Bytes>, k: nat, i: nat)
    requires i < |blocks| && i < MAX_ID && k < |uploads| && Held(blocks, uploads, service, i)
    requires forall u :: u in uploads ==> Cut(blocks, u)
    ensures Held(blocks, uploads[..k] + uploads[k + 1..], service[uploads[k].id := uploads[k].data], i)
  {
    var u := Upload(i, blocks[i]);
    if u in uploads && u != uploads[k] {
      var j :| 0 <= j < |uploads| && uploads[j] == u;
      assert (uploads[..k] + uploads[k + 1..])[if j < k then j else j - 1] == u;
    }
    assert Cut(blocks, uploads[k]);
  }

  class BlobWriter {
    var buffer: Bytes
    var uploads: seq<Upload>
    var bytesWritten: nat
    var blockIdCounter: nat
    var shutdown: Shutdown
    var requests: seq<Request>

    /** The blocks that the service has stored, and the blob once a list of blocks is committed. */
    var service: map<nat, Bytes>
    var blob: Option<Bytes>

    /** Everything accepted so far, the blocks cut from it, and whether any poll returned an error. */
    ghost var accepted: Bytes
    ghost var blocks: seq<Bytes>
    ghost var failed: bool

    /** The buffer and the blocks account for every accepted byte. */
    ghost predicate Accounts()
      reads this
    {
      && accepted == Concat(blocks) + buffer && |buffer| <= BLOCK_SIZE
      && blockIdCounter == Min(|blocks|, MAX_ID) && bytesWritten == Min(|Concat(blocks)|, MAX_BYTES)
      && Sized(blocks)
      && (shutdown == Open || buffer != [] ==> forall i :: 0 <= i < |blocks| ==> |blocks[i]| >= MINIMUM_BLOCK_SIZE)
    }

    /** Uploads in flight are bounded, and one fewer while bytes are buffered. */
    ghost predicate Bounded()
      reads this
    {
      |uploads| <= CONCURRENT_UPLOADS + 1 && (buffer != [] ==> |uploads| <= CONCURRENT_UPLOADS)
    }

    ghost predicate Delivers()
      reads this
    {
      AllHeld(blocks, uploads, service, failed)
    }

    /** Nothing is committed before every upload has ended, nor finalised before the commit. */
    ghost predicate Ordered()
      reads this
    {
      var n := blockIdCounter;
      && (shutdown.Open? || shutdown.Flush? ==> requests == [] && blob == None)
      && (!shutdown.Open? && !shutdown.Flush? ==> uploads == [] && buffer == [])
      && (shutdown.CommittingAzure? ==> requests == [CommitBlocks(n)] && blob == None)
      && (shutdown.CommittingGithub? || shutdown.Shut? ==>
            && requests == [CommitBlocks(n), Finalize(bytesWritten)]
            && blob.Some? && (!failed ==> blob == Some(Concat(blocks[..Min(|blocks|, MAX_ID)]))))
    }

    ghost predicate Consistent()
      reads this
    {
      Accounts() && Bounded() && Delivers() && Ordered()
    }

    ghost predicate Valid()
      reads this
    {
      Consistent() && |buffer| < BLOCK_SIZE
    }

    constructor ()
      ensures Valid() && accepted == [] && !failed && shutdown == Open
    {
      buffer, uploads, bytesWritten, blockIdCounter, shutdown, requests := [], [], 0, 0, Open, [];
      service, blob := map[], None;
      accepted, blocks, failed := [], [], false;
    }

    /** Starts uploading the buffer as the next block. */
    method UploadBuffer()
      requires Consistent() && buffer != []
      requires (shutdown == Flush || (shutdown == Open && |buffer| >= MINIMUM_BLOCK_SIZE))
      modifies `buffer, `uploads, `bytesWritten, `blockIdCounter, `blocks
      ensures Valid() && buffer == [] && blocks == old(blocks) + [old(buffer)]
      ensures uploads == old(uploads) + [Upload(old(blockIdCounter), old(buffer))]
    {
      hide Concat, Held, Cut, Sized;
      bytesWritten := Min(bytesWritten + |buffer|, MAX_BYTES);
      var id := blockIdCounter;
      blockIdCounter := Min(blockIdCounter + 1, MAX_ID);
      uploads := uploads + [Upload(id, buffer)];
      AllAfterUpload(blocks, old(uploads), service, failed, buffer);
      ConcatLast(blocks, buffer);
      SizedAfter(blocks, buffer);
      blocks := blocks + [buffer];
      buffer := [];
    }

    /** Takes one ended upload, if there is one, in whatever order they end. */
    method PollJoinNext(wake: Wake) returns (r: Poll<Option<bool>>)
      requires Consistent()
      modifies `uploads, `service, `failed
      ensures Consistent()
      ensures old(uploads) == [] || wake.Running? ==>
                && r == (if old(uploads) == [] then Ready(None) else Pending)
                && uploads == old(uploads) && service == old(service) && failed == old(failed)
      ensures old(uploads) != [] && wake.Ended? ==>
                var i := wake.which % old(|uploads|);
                var u := old(uploads)[i];
                && r == Ready(Some(wake.ok)) && uploads == old(uploads)[..i] + old(uploads)[i + 1..]
                && service == (if wake.ok || wake.arrived then old(service)[u.id := u.data] else old(service))
                && failed == (old(failed) || !wake.ok)
    {
      if uploads == [] { return Ready(None); }
      if wake.Running? { return Pending; }
      var i := wake.which % |uploads|;
      var u := uploads[i];
      ghost var left, stored := uploads[..i] + uploads[i + 1..], service[u.id := u.data];
      if !failed {
        forall b | 0 <= b < |blocks| && b < MAX_ID ensures Held(blocks, left, stored, b) {
          HeldAfterEnd(blocks, uploads, service, i, b);
        }
      }
      uploads := uploads[..i] + uploads[i + 1..];
      if wake.ok || wake.arrived { service := service[u.id := u.data]; }
      if !wake.ok { failed := true; }
      r := Ready(Some(wake.ok));
    }

    /** Accepts a prefix of `buf`, waits for an upload to end, or fails. */
    method PollWrite(buf: Bytes, wake: Wake) returns (r: Poll<Result<nat, string>>)
      requires Valid()
      modifies this
      ensures Valid() && shutdown == old(shutdown) && (old(failed) ==> failed)
      ensures r.Pending? <==> old(shutdown) == Open && old(|uploads|) >= 4 && wake.Running?
      ensures r.Ready? && r.value.Err? <==>
                old(shutdown) != Open || (old(uploads) != [] && wake.Ended? && !wake.ok)
      ensures old(shutdown) != Open ==> failed == old(failed)
      ensures r.Ready? && r.value.Ok? ==>
                && r.value.value == Min(|buf|, 32 * 1024 * 1024 - old(|buffer|)) && failed == old(failed)
                && accepted == old(accepted) + buf[..r.value.value] && (buf != [] ==> r.value.value > 0)
      ensures !(r.Ready? && r.value.Ok?) ==> accepted == old(accepted) && blocks == old(blocks)
      ensures r.Ready? && r.value.Err? ==> failed || old(shutdown) != Open
    {
      hide Concat, Sized, Held, Cut, AllHeld;
      if shutdown != Open { return Ready(Err("Cannot write after shutdown started.")); }
      var ended := PollJoinNext(wake);
      match ended {
        case Ready(Some(ok)) => if !ok { return Ready(Err("upload failed")); }
        case Ready(None) =>
        case Pending => if |uploads| >= CONCURRENT_UPLOADS { return Pending; }
      }
      var written := Min(|buf|, BLOCK_SIZE - |buffer|);
      buffer := buffer + buf[..written];
      accepted := accepted + buf[..written];
      assert accepted == Concat(blocks) + buffer;
      if |buffer| >= BLOCK_SIZE { UploadBuffer(); }
      r := Ready(Ok(written));
    }

    /** Uploads a large enough buffer and waits for all uploads to end. */
    method PollFlush(wakes: nat -> Wake) returns (r: Poll<Result<(), string>>)
      requires Valid()
      modifies `buffer, `uploads, `bytesWritten, `blockIdCounter, `blocks, `service, `failed
      ensures Valid() && (old(failed) ==> failed) && (old(buffer) == [] ==> buffer == [])
      ensures Reports(r, Drain(old(|uploads|) + if old(|buffer|) >= MINIMUM_BLOCK_SIZE then 1 else 0, wakes, 0))
      ensures r == Pending ==> exists k :: wakes(k).Running?
      ensures r.Ready? && r.value.Err? ==> exists k :: wakes(k).Ended? && !wakes(k).ok
      ensures r.Ready? && r.value.Ok? ==> uploads == [] && |buffer| < 5 * 1024 * 1024 && failed == old(failed)
      ensures r.Ready? && r.value.Err? ==> failed
      ensures r.Pending? ==> uploads != [] && failed == old(failed)
      ensures blocks == if old(|buffer|) >= 5 * 1024 * 1024 then old(blocks) + [old(buffer)] else old(blocks)
    {
      hide Concat, Sized, Held, Cut, AllHeld;
      if |buffer| >= MINIMUM_BLOCK_SIZE { UploadBuffer(); }
      var k := 0;
      ghost var waiting := |uploads|;
      while true
        invariant Valid() && |buffer| < MINIMUM_BLOCK_SIZE && failed == old(failed)
        invariant Drain(|uploads|, wakes, k) == Drain(waiting, wakes, 0)
        invariant old(buffer) == [] ==> buffer == []
        invariant blocks == if old(|buffer|) >= MINIMUM_BLOCK_SIZE then old(blocks) + [old(buffer)] else old(blocks)
        decreases |uploads|
      {
        var ended := PollJoinNext(wakes(k));
        assert wakes(k).Running? || wakes(k).Ended?;
        k := k + 1;
        match ended {
          case Pending => return Pending;
          case Ready(None) => return Ready(Ok(()));
          case Ready(Some(ok)) => if !ok { return Ready(Err("upload failed")); }
        }
      }
    }

    /** Whether every block of the list is stored. */
    predicate AllStored()
      reads this
    {
      forall i :: 0 <= i < blockIdCounter ==> i in service
    }

    /** Waits for the commit of the list of blocks, which needs every block in it. */
    method PollCommit(answer: Answer) returns (r: Poll<Result<(), string>>)
      requires Valid() && shutdown == CommittingAzure
      modifies `blob, `requests, `shutdown, `failed
      ensures Valid() && (r.Ready? && r.value.Err? ==> failed)
      ensures Reports(r, if answer.Answered? && !old(AllStored()) then Ready(false) else Heard(answer))
      ensures !old(failed) ==> old(AllStored())
      ensures !(r.Ready? && r.value.Err?) ==> failed == old(failed)
      ensures shutdown == if r.Ready? && r.value.Ok? then CommittingGithub else CommittingAzure
    {
      if !failed {
        forall i | 0 <= i < blockIdCounter ensures i in service { assert Held(blocks, uploads, service, i); }
      }
      if answer.Unanswered? { return Pending; }
      if !answer.ok || !AllStored() {
        failed := true;
        return Ready(Err("commit failed"));
      }
      if !failed {
        forall i | 0 <= i < blockIdCounter ensures service[i] == blocks[i] { assert Held(blocks, uploads, service, i); }
        AssembleBlocks(service, blocks, blockIdCounter);
      }
      blob := Some(Assemble(service, blockIdCounter));
      requests := requests + [Finalize(bytesWritten)];
      shutdown := CommittingGithub;
      r := Ready(Ok(()));
    }

    method PollFinalise(answer: Answer) returns (r: Poll<Result<(), string>>)
      requires Valid() && shutdown == CommittingGithub
      modifies `shutdown, `failed
      ensures Valid() && (r.Ready? && r.value.Err? ==> failed)
      ensures Reports(r, Heard(answer))
      ensures !(r.Ready? && r.value.Err?) ==> failed == old(failed)
      ensures shutdown == if r.Ready? && r.value.Ok? then Shut else CommittingGithub
    {
      if answer.Unanswered? { return Pending; }
      if !answer.ok {
        failed := true;
        return Ready(Err("finalise failed"));
      }
      shutdown := Shut;
      r := Ready(Ok(()));
    }

    /** Uploads what is left, waits for all uploads and asks for the commit. */
    method FlushLast(wakes: nat -> Wake) returns (r: Poll<Result<(), string>>)
      requires Valid() && shutdown == Flush
      modifies this
      ensures Valid() && accepted == old(accepted) && (old(failed) ==> failed)
      ensures Reports(r, Drain(old(|uploads|) + if old(buffer) != [] then 1 else 0, wakes, 0))
      ensures r == Pending ==> shutdown == Flush && failed == old(failed) && exists k :: wakes(k).Running?
      ensures r.Ready? && r.value.Ok? ==> shutdown == CommittingAzure && failed == old(failed)
      ensures r.Ready? && r.value.Err? ==> shutdown == Flush && failed && exists k :: wakes(k).Ended? && !wakes(k).ok
    {
      hide Concat, Sized, Held, Cut, AllHeld, Drain;
      if buffer != [] { UploadBuffer(); }
      r := PollFlush(wakes);
      if r.Ready? && r.value.Ok? {
        requests := requests + [CommitBlocks(blockIdCounter)];
        shutdown := CommittingAzure;
      }
    }

    /** Uploads what is left, waits for all uploads, commits the list of blocks and then finalises. */
    method PollShutdown(wakes: nat -> Wake, commit: Answer, finalise: Answer) returns (r: Poll<Result<(), string>>)
      requires Valid()
      modifies this
      ensures Valid() && accepted == old(accepted) && (old(failed) ==> failed)
      ensures r.Ready? && r.value.Ok? ==> shutdown == Shut && failed == old(failed)
      ensures r.Ready? && r.value.Err? ==> failed
      ensures r == Pending ==> (exists k :: wakes(k).Running?) || commit.Unanswered? || finalise.Unanswered?
      ensures r.Ready? && r.value.Err? ==>
                || old(failed) || (exists k :: wakes(k).Ended? && !wakes(k).ok)
                || commit == Answered(false) || finalise == Answered(false)
      ensures r.Ready? && r.value.Ok? && !failed && |blocks| <= 65535 ==>
                blob == Some(accepted) && requests == [CommitBlocks(|blocks|), Finalize(Min(|accepted|, MAX_BYTES))]
    {
      hide Concat, Assemble, Sized, Held, Cut, AllHeld, Drain;
      while true
        invariant Valid() && accepted == old(accepted) && failed == old(failed)
        decreases Stages(shutdown)
      {
        match shutdown {
          case Open => shutdown := Flush;
          case Flush =>
            var flushed := FlushLast(wakes);
            match flushed {
              case Pending => return Pending;
              case Ready(Err(e)) => return Ready(Err(e));
              case Ready(Ok(_)) =>
            }
          case CommittingAzure =>
            var committed := PollCommit(commit);
            match committed {
              case Pending => return Pending;
              case Ready(Err(e)) => return Ready(Err(e));
              case Ready(Ok(_)) =>
            }
          case CommittingGithub =>
            var finalised := PollFinalise(finalise);
            match finalised {
              case Pending => return Pending;
              case Ready(Err(e)) => return Ready(Err(e));
              case Ready(Ok(_)) =>
            }
          case Shut =>
            CommittedIsWhole(blocks);
            assert accepted == Concat(blocks);
            return Ready(Ok(()));
        }
      }
    }
  }
}
