/**
 * Task parameters of a PPM deployment: the `Parameters` record every party
 * agrees on, the collector's `HpkeConfig`, the `Protocol` variant, and the
 * 32-byte `TaskId` derived from a parameter set.
 *
 * The task identifier is computed exactly as the implementation does it: the
 * 16-byte nonce, zero-padded to 32 bytes. No hash of the parameters is taken,
 * even though the documentation of `TaskId` describes one.
 */
module TaskParameters {

  /** Rust's `u8`, `u16`, `u32` and `u64`. */
  newtype byte = x: int | 0 <= x < 0x100
  newtype u16 = x: int | 0 <= x < 0x1_0000
  newtype u32 = x: int | 0 <= x < 0x1_0000_0000
  newtype u64 = x: int | 0 <= x < 0x1_0000_0000_0000_0000

  const NonceLength: nat := 16
  const TaskIdLength: nat := 32

  /** `[u8; 16]`: the nonce a task is created with. */
  type Nonce = s: seq<byte> | |s| == NonceLength
    witness seq(NonceLength, _ => 0)

  /** `[u8; 32]`: the identifier of a task. */
  type TaskId = s: seq<byte> | |s| == TaskIdLength
    witness seq(TaskIdLength, _ => 0)

  /** An endpoint URL, kept as its text; URL parsing is a library's concern. */
  type Url = string

  /** `std::time::Duration`: whole seconds plus a sub-second part in nanoseconds. */
  newtype SubsecondNanos = x: u32 | x < 1_000_000_000
  datatype Duration = Duration(secs: u64, nanos: SubsecondNanos)

  /** The two PPM protocols the implementation supports. */
  datatype Protocol = Prio | HeavyHitters

  /** The HPKE configuration published by one PPM participant. */
  datatype HpkeConfig = HpkeConfig(
    id: byte,
    kemId: u16,
    kdfId: u16,
    aeadId: u16,
    publicKey: seq<byte>)

  /** The configuration parameters of one PPM task. */
  datatype Parameters = Parameters(
    nonce: Nonce,
    leaderUrl: Url,
    helperUrl: Url,
    collectorConfig: HpkeConfig,
    batchSize: u64,
    batchWindow: Duration,
    protocol: Protocol)

  /** The all-zero byte string of length n. */
  function Zeros(n: nat): (z: seq<byte>)
    ensures |z| == n && forall i :: 0 <= i < n ==> z[i] == 0
  {
    seq(n, _ => 0)
  }

  /** The task id holds the nonce in its first bytes and zeros in the rest. */
  predicate ZeroTail(id: TaskId)
  {
    forall i :: NonceLength <= i < TaskIdLength ==> id[i] == 0
  }

  /**
   * Specification of the task id: the nonce, zero-padded to 32 bytes.
   * Its first 16 bytes are the nonce, byte for byte, and the last 16 are zero.
   */
  function ZeroPadded(nonce: Nonce): (id: TaskId)
    ensures forall i :: 0 <= i < NonceLength ==> id[i] == nonce[i]
    ensures ZeroTail(id)
  {
    nonce + Zeros(TaskIdLength - NonceLength)
  }

  /**
   * Truncation of a task id to its nonce-sized prefix, the slice that the
   * derivation overwrites with the nonce. It undoes the padding of any id
   * whose tail is zero.
   */
  function NonceOf(id: TaskId): (nonce: Nonce)
    ensures forall i :: 0 <= i < NonceLength ==> nonce[i] == id[i]
    ensures ZeroTail(id) ==> ZeroPadded(nonce) == id
  {
    var nonce := id[..NonceLength];
    assert ZeroTail(id) ==> ZeroPadded(nonce) == id by {
      if ZeroTail(id) {
        forall i | 0 <= i < TaskIdLength
          ensures ZeroPadded(nonce)[i] == id[i]
        {
        }
      }
    }
    nonce
  }

  /**
   * `Parameters::task_id`: allocate a zeroed 32-byte buffer, copy the nonce
   * into its first 16 bytes and return the buffer by value. The parameters
   * are only read.
   */
  method TaskIdOf(p: Parameters) returns (id: TaskId)
    ensures id == ZeroPadded(p.nonce)
  {
    var buffer := new byte[TaskIdLength](_ => 0);
    // `copy_from_slice` of the nonce into `buffer[..|nonce|]`
    for i := 0 to |p.nonce|
      invariant buffer[..i] == p.nonce[..i]
      invariant forall k :: i <= k < buffer.Length ==> buffer[k] == 0
    {
      buffer[i] := p.nonce[i];
    }
    id := buffer[..];
    assert id[..NonceLength] == p.nonce;
    forall k | 0 <= k < TaskIdLength
      ensures id[k] == ZeroPadded(p.nonce)[k]
    {
      if k < NonceLength {
        assert id[k] == id[..NonceLength][k];
      }
    }
  }

  /** Truncating a task id recovers the nonce it was derived from. */
  lemma NonceOfZeroPadded(nonce: Nonce)
    ensures NonceOf(ZeroPadded(nonce)) == nonce
  {
  }

  /** Exactly the ids with a zero tail are derived from some nonce. */
  lemma {:induction false} ZeroPaddedImage(id: TaskId)
    ensures (exists nonce: Nonce :: ZeroPadded(nonce) == id) <==> ZeroTail(id)
  {
    if ZeroTail(id) {
      assert ZeroPadded(NonceOf(id)) == id;
    }
  }

  /** Distinct nonces give distinct task ids, and equal nonces equal ones. */
  lemma ZeroPaddedInjective(a: Nonce, b: Nonce)
    ensures ZeroPadded(a) == ZeroPadded(b) <==> a == b
  {
  }

  /**
   * The task id of a parameter set depends on its nonce and on nothing else:
   * two parameter sets share a task id exactly when they share a nonce,
   * whatever their URLs, collector configuration, batch size, batch window
   * or protocol.
   */
  lemma TaskIdDependsOnlyOnNonce(p: Parameters, q: Parameters)
    ensures ZeroPadded(p.nonce) == ZeroPadded(q.nonce) <==> p.nonce == q.nonce
  {
  }

  /**
   * A caller that derives the task id twice from the same parameters, as the
   * client does when it builds the HPKE sender and then the report, obtains
   * the same identifier both times.
   */
  method TaskIdTwice(p: Parameters) returns (first: TaskId, second: TaskId)
    ensures first == second
    ensures first[..NonceLength] == p.nonce && ZeroTail(first)
  {
    first := TaskIdOf(p);
    second := TaskIdOf(p);
    NonceOfZeroPadded(p.nonce);
  }

  /** HPKE algorithm identifiers from section 7 of RFC 9180. */
  const DhkemX25519HkdfSha256: u16 := 0x0020
  const HkdfSha384: u16 := 0x0002
  const ChaCha20Poly1305: u16 := 0x0003

  /** The nonce 0, 1, ..., 15 shifted by `start`. */
  function CountingNonce(start: byte): (nonce: Nonce)
    requires start as int + NonceLength <= 0x100
    ensures forall i :: 0 <= i < NonceLength ==> nonce[i] as int == start as int + i
  {
    seq(NonceLength, i requires 0 <= i < NonceLength => (start as int + i) as byte)
  }

  /**
   * The unit test of `task_id`: two parameter sets with nonces 0..15 and
   * 1..16 (and different collector public keys) get different task ids.
   */
  method TaskIdTest() returns (id: TaskId, otherId: TaskId)
    ensures id != otherId
  {
    var config := HpkeConfig(0, DhkemX25519HkdfSha256, HkdfSha384, ChaCha20Poly1305, [0, 1, 2, 3]);
    var params := Parameters(
      CountingNonce(0), "https://leader.fake", "https://helper.fake",
      config, 100, Duration(100, 0), Prio);
    var otherParams := Parameters(
      CountingNonce(1), "https://leader.fake", "https://helper.fake",
      config.(publicKey := [4, 5, 6, 7]), 100, Duration(100, 0), Prio);
    id := TaskIdOf(params);
    otherId := TaskIdOf(otherParams);
    assert id[0] == 0 && otherId[0] == 1;
  }
}
