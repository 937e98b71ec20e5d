/**
 Three in-place buffers that keep the last bytes of a stream: TailBuffer
 (internal/process/tail_buffer.go), tailWriter (internal/dependencies/installer.go) and tailBuffer
 (internal/update/command_runner.go). After any sequence of writes each holds exactly the last
 min(limit, total) bytes of everything written.
 */
module TailBuffers {

  type Bytes = seq<bv8>

  function Last(limit: int, stream: Bytes): (tail: Bytes)
    ensures limit >= 0 ==> |tail| == if |stream| < limit then |stream| else limit
  {
    if limit <= 0 then [] else if |stream| <= limit then stream else stream[|stream| - limit..]
  }

  function Concat(writes: seq<Bytes>): Bytes {
    if writes == [] then [] else Concat(writes[..|writes| - 1]) + writes[|writes| - 1]
  }

  lemma ConcatAppends(writes: seq<Bytes>, data: Bytes)
    ensures Concat(writes + [data]) == Concat(writes) + data
  {
    assert (writes + [data])[..|writes|] == writes;
  }

  /** What was dropped before can be forgotten: the new tail is the old one shifted by the overflow,
      or the end of a long write. */
  lemma TailMoves(limit: int, stream: Bytes, value: Bytes)
    requires limit >= 0
    ensures |value| >= limit ==> Last(limit, stream + value) == value[|value| - limit..]
    ensures |value| < limit ==>
              var kept := Last(limit, stream);
              var overflow := |kept| + |value| - limit;
              Last(limit, stream + value) == (if overflow > 0 then kept[overflow..] else kept) + value
  {
    if |value| < limit && |stream + value| > limit {
      SuffixOfSum(stream, value, |stream| + |value| - limit);
      SuffixOfSuffix(stream, |stream| - |Last(limit, stream)|, |stream| + |value| - limit);
    } else if limit > 0 && |stream + value| > limit {
      SuffixOfRight(stream, value, |value| - limit);
    }
  }

  lemma SuffixOfSum(a: Bytes, b: Bytes, i: nat)
    requires i <= |a|
    ensures (a + b)[i..] == a[i..] + b
  {
  }

  lemma SuffixOfRight(a: Bytes, b: Bytes, i: nat)
    requires i <= |b|
    ensures (a + b)[|a| + i..] == b[i..]
  {
  }

  lemma SuffixOfSuffix(a: Bytes, i: nat, j: nat)
    requires i <= j <= |a|
    ensures a[i..][j - i..] == a[j..]
  {
  }

  // ---------------------------------------------------------------------------------------------
  // The process runner's buffer
  // ---------------------------------------------------------------------------------------------

  /** The i-th write pushed bytes out. */
  predicate Dropped(limit: int, writes: seq<Bytes>, i: nat)
    requires i < |writes|
  {
    if limit <= 0 then |writes[i]| > 0 else |Last(limit, Concat(writes[..i]))| + |writes[i]| > limit
  }

  /** A write the flag notices. */
  predicate Noticed(limit: int, writes: seq<Bytes>, i: nat)
    requires i < |writes|
  {
    Dropped(limit, writes, i) && (limit <= 0 || |writes[i]| != limit)
  }

  ghost predicate SomeNoticed(limit: int, writes: seq<Bytes>) { exists i :: 0 <= i < |writes| && Noticed(limit, writes, i) }

  lemma NoticedAppends(limit: int, writes: seq<Bytes>, data: Bytes)
    ensures SomeNoticed(limit, writes + [data]) <==>
              || SomeNoticed(limit, writes)
              || (if limit <= 0 then |data| > 0 else |data| != limit && |Last(limit, Concat(writes))| + |data| > limit)
  {
    var longer := writes + [data];
    assert longer[..|writes|] == writes;
    assert Noticed(limit, longer, |writes|) <==>
             if limit <= 0 then |data| > 0 else |data| != limit && |Last(limit, Concat(writes))| + |data| > limit;
    forall i | 0 <= i < |writes| ensures Noticed(limit, longer, i) <==> Noticed(limit, writes, i) {
      assert longer[..i] == writes[..i];
    }
  }

  class TailBuffer {
    const limit: int
    var data: Bytes
    var truncated: bool
    ghost var writes: seq<Bytes>

    ghost predicate Valid()
      reads this
    {
      data == Last(limit, Concat(writes)) && (truncated <==> SomeNoticed(limit, writes))
    }

    constructor (limit: int)
      ensures this.limit == limit && writes == [] && Valid()
    {
      this.limit := limit;
      data, truncated, writes := [], false, [];
    }

    method Write(value: Bytes) returns (n: nat)
      requires Valid()
      modifies this
      ensures Valid() && n == |value| && writes == old(writes) + [value]
      ensures data == Last(limit, Concat(old(writes)) + value)
    {
      ghost var before := writes;
      writes := writes + [value];
      ConcatAppends(before, value);
      if limit > 0 { TailMoves(limit, Concat(before), value); }
      NoticedAppends(limit, before, value);
      n := |value|;
      if limit <= 0 {
        if |value| > 0 { truncated := true; }
        return;
      }
      if |value| > limit {
        data := value[|value| - limit..];
        truncated := true;
        return;
      }
      if |value| == limit {
        data := value;
        return;
      }
      if |data| + |value| > limit {
        var drop := |data| + |value| - limit;
        data := data[drop..];
        truncated := true;
      }
      data := data + value;
    }
  }

  lemma {:induction false} OverflowDrops(limit: int, writes: seq<Bytes>)
    requires limit > 0
    ensures |Concat(writes)| > limit <==> exists i :: 0 <= i < |writes| && Dropped(limit, writes, i)
  {
    if writes != [] {
      var shorter := writes[..|writes| - 1];
      OverflowDrops(limit, shorter);
      forall i | 0 <= i < |shorter| ensures Dropped(limit, writes, i) <==> Dropped(limit, shorter, i) {
        assert writes[..i] == shorter[..i];
      }
      if |Concat(writes)| > limit && |Concat(shorter)| <= limit { assert Dropped(limit, writes, |shorter|); }
    }
  }

  /** The flag is not "bytes were dropped": it stays unset over dropped bytes exactly when every write
      that dropped any was exactly as long as the limit. */
  lemma FlagMissesExactLimitWrites(limit: int, writes: seq<Bytes>)
    requires limit > 0
    ensures |Concat(writes)| > limit && !SomeNoticed(limit, writes) <==>
              && (exists i :: 0 <= i < |writes| && Dropped(limit, writes, i))
              && (forall i :: 0 <= i < |writes| && Dropped(limit, writes, i) ==> |writes[i]| == limit)
  {
    OverflowDrops(limit, writes);
    assert forall i :: 0 <= i < |writes| ==> (Noticed(limit, writes, i) <==> Dropped(limit, writes, i) && |writes[i]| != limit);
  }

  /** Two writes of exactly the limit: the first is gone, the flag is unset. */
  lemma FlagMissesSomething(limit: int, first: Bytes, second: Bytes)
    requires limit > 0 && |first| == limit && |second| == limit
    ensures |Concat([first, second])| > limit && !SomeNoticed(limit, [first, second])
  {
    var writes := [first, second];
    assert writes[..1] == [first] && writes[..0] == [];
    ConcatAppends([first], second);
    ConcatAppends([], first);
    assert [first] == [] + [first];
    assert [first] + [second] == writes;
  }

  // ---------------------------------------------------------------------------------------------
  // The installer's writer
  // ---------------------------------------------------------------------------------------------

  class TailWriter {
    const limit: nat
    var data: Bytes
    ghost var stream: Bytes

    ghost predicate Valid()
      reads this
    {
      data == Last(limit, stream)
    }

    constructor (limit: nat)
      ensures this.limit == limit && stream == [] && Valid()
    {
      this.limit := limit;
      data, stream := [], [];
    }

    method Write(value: Bytes) returns (n: nat)
      requires Valid()
      modifies this
      ensures Valid() && n == |value| && stream == old(stream) + value
    {
      TailMoves(limit, stream, value);
      stream := stream + value;
      n := |value|;
      if |value| >= limit {
        data := value[|value| - limit..];
        return;
      }
      if |data| + |value| > limit {
        var drop := |data| + |value| - limit;
        data := data[drop..];
      }
      data := data + value;
    }
  }

  // ---------------------------------------------------------------------------------------------
  // The updater's buffer, shifted in place
  // ---------------------------------------------------------------------------------------------

  /** Moves bytes [from, to) of the buffer to its front, one by one. */
  method ShiftDown(bytes: array<bv8>, from: nat, to: nat)
    requires from <= to <= bytes.Length
    modifies bytes
    ensures bytes[..to - from] == old(bytes[from..to])
    ensures bytes[to..] == old(bytes[to..])
  {
    for k := 0 to to - from
      invariant bytes[..k] == old(bytes[from..from + k])
      invariant bytes[from + k..] == old(bytes[from + k..])
    {
      assert bytes[from + k] == bytes[from + k..][0];
      assert old(bytes[from + k]) == old(bytes[from + k..])[0];
      bytes[k] := bytes[from + k];
      assert bytes[from + k + 1..] == old(bytes[from + k..])[1..];
    }
    assert old(bytes[from..])[to - from..] == old(bytes[to..]);
    assert bytes[to..] == bytes[from + (to - from)..];
  }

  method Overwrite(bytes: array<bv8>, at: nat, value: Bytes)
    requires at + |value| <= bytes.Length
    modifies bytes
    ensures bytes[..at + |value|] == old(bytes[..at]) + value
  {
    for k := 0 to |value|
      invariant bytes[..at + k] == old(bytes[..at]) + value[..k]
    {
      bytes[at + k] := value[k];
      assert value[..k + 1] == value[..k] + [value[k]];
    }
    assert value[..|value|] == value;
  }

  class CommandBuffer {
    const limit: int
    const bytes: array<bv8>
    var length: nat
    ghost var stream: Bytes

    ghost predicate Valid()
      reads this, bytes
    {
      && bytes.Length == (if limit > 0 then limit else 0)
      && length <= bytes.Length
      && bytes[..length] == Last(limit, stream)
    }

    constructor (limit: int)
      ensures this.limit == limit && stream == [] && Valid() && fresh(bytes)
    {
      this.limit := limit;
      bytes := new bv8[if limit > 0 then limit else 0];
      length, stream := 0, [];
    }

    method Write(value: Bytes) returns (n: nat)
      requires Valid()
      modifies this, bytes
      ensures Valid() && n == |value| && stream == old(stream) + value
    {
      if limit > 0 { TailMoves(limit, stream, value); }
      ghost var kept := bytes[..length];
      stream := stream + value;
      n := |value|;
      if limit <= 0 { return; }
      if |value| >= limit {
        Overwrite(bytes, 0, value[|value| - limit..]);
        length := limit;
        return;
      }
      var overflow := length + |value| - limit;
      if overflow > 0 {
        ShiftDown(bytes, overflow, length);
        assert bytes[..length - overflow] == kept[overflow..];
        length := length - overflow;
      }
      Overwrite(bytes, length, value);
      length := length + |value|;
    }
  }

  /** Whatever way a stream was cut into writes, the three buffers agree, and each agrees with slicing
      the whole stream. */
  lemma BuffersAgree(a: TailBuffer, b: TailWriter, c: CommandBuffer)
    requires a.Valid() && b.Valid() && c.Valid() && a.limit == b.limit == c.limit
    requires Concat(a.writes) == b.stream == c.stream
    ensures a.data == b.data == c.bytes[..c.length]
    ensures |b.stream| > b.limit ==> a.data == b.stream[|b.stream| - b.limit..]
    ensures |b.stream| <= b.limit ==> a.data == b.stream
  {
  }
}
