/** The helpers of onprem/utils.py: list chunking (`split_list`), the
    streaming download with its progress bar (`download`) and the data
    directory (`get_datadir`). */
module Utils {
  import opened Outcomes
  import opened Paths
  import opened FileSystem

  function Min(a: int, b: int): int { if a <= b then a else b }

  function Max(a: int, b: int): int { if a <= b then b else a }

  /** `math.ceil(n / k)` on naturals. */
  function CeilDiv(n: nat, k: nat): nat
    requires k > 0
  {
    (n + k - 1) / k
  }

  lemma MulMonotone(a: int, b: int, k: nat)
    requires a <= b
    ensures a * k <= b * k
  {
    assert b * k - a * k == (b - a) * k;
  }

  /** Division determined by its quotient bounds. */
  lemma DivUnique(n: int, k: int, q: int)
    requires k > 0 && q * k <= n < q * k + k
    ensures n / k == q
  {
    var p := n / k;
    if p < q {
      MulMonotone(p + 1, q, k);
    } else if q < p {
      MulMonotone(q + 1, p, k);
    }
  }

  lemma CeilDivStep(m: nat, k: nat)
    requires k > 0 && m > 0
    ensures CeilDiv(m, k) == 1 + CeilDiv(if m <= k then 0 else m - k, k)
  {
    if m <= k {
      DivUnique(m + k - 1, k, 1);
      DivUnique(k - 1, k, 0);
    } else {
      var q := CeilDiv(m - k, k);
      assert q * k <= m - 1 < q * k + k;
      assert (q + 1) * k == q * k + k;
      DivUnique(m + k - 1, k, q + 1);
    }
  }

  /** The slices concatenated in order. */
  function Flatten<T>(ss: seq<seq<T>>): seq<T> {
    if ss == [] then [] else ss[0] + Flatten(ss[1..])
  }

  /** The sum of the slices' lengths. */
  function TotalLength<T>(ss: seq<seq<T>>): nat {
    if ss == [] then 0 else |ss[0]| + TotalLength(ss[1..])
  }

  lemma {:induction false} FlattenSnoc<T>(ss: seq<seq<T>>, x: seq<T>)
    ensures Flatten(ss + [x]) == Flatten(ss) + x
  {
    if ss != [] {
      assert (ss + [x])[1..] == ss[1..] + [x];
      FlattenSnoc(ss[1..], x);
    }
  }

  lemma {:induction false} TotalLengthSnoc<T>(ss: seq<seq<T>>, x: seq<T>)
    ensures TotalLength(ss + [x]) == TotalLength(ss) + |x|
  {
    if ss != [] {
      assert (ss + [x])[1..] == ss[1..] + [x];
      TotalLengthSnoc(ss[1..], x);
    }
  }

  /** The number of bytes delivered is the length of what they concatenate to. */
  lemma {:induction false} LengthOfFlatten<T>(ss: seq<seq<T>>)
    ensures |Flatten(ss)| == TotalLength(ss)
  {
    if ss != [] {
      LengthOfFlatten(ss[1..]);
    }
  }

  lemma {:induction false} TotalLengthPrefix<T>(ss: seq<seq<T>>, i: nat, j: nat)
    requires i <= j <= |ss|
    ensures TotalLength(ss[..i]) <= TotalLength(ss[..j])
    decreases j - i
  {
    if i < j {
      assert ss[..i + 1] == ss[..i] + [ss[i]];
      TotalLengthSnoc(ss[..i], ss[i]);
      TotalLengthPrefix(ss, i + 1, j);
    }
  }

  // ---------------------------------------------------------------------------
  // split_list (onprem/utils.py:39-41)

  /** The slices `s[i:i+k]`, `s[i+k:i+2k]`, ... of `range(i, len(s), k)`. */
  function SlicesFrom<T>(s: seq<T>, k: nat, i: nat): seq<seq<T>>
    requires k > 0 && i <= |s|
    decreases |s| - i
  {
    if i == |s| then [] else [s[i..Min(i + k, |s|)]] + SlicesFrom(s, k, Min(i + k, |s|))
  }

  /** The shape of the slices: ceil((n-i)/k) of them, concatenating to `s[i..]`,
      each of length k except a last one of 1..k elements. */
  lemma {:induction false} SlicesFromShape<T>(s: seq<T>, k: nat, i: nat)
    requires k > 0 && i <= |s|
    ensures var r := SlicesFrom(s, k, i);
      && |r| == CeilDiv(|s| - i, k)
      && Flatten(r) == s[i..]
      && (forall j :: 0 <= j < |r| - 1 ==> |r[j]| == k)
      && (r != [] ==> 1 <= |r[|r| - 1]| <= k)
      && (r != [] ==> r[0] == s[i..Min(i + k, |s|)])
    decreases |s| - i
  {
    if i < |s| {
      var next := Min(i + k, |s|);
      SlicesFromShape(s, k, next);
      CeilDivStep(|s| - i, k);
      assert s[i..] == s[i..next] + s[next..];
    }
  }

  /** `list(split_list(input_list, chunk_size))`. A zero step makes `range`
      raise; a negative step gives an empty range. */
  function SplitList<T>(inputList: seq<T>, chunkSize: int): (r: Result<seq<seq<T>>>)
    ensures r.Err? <==> chunkSize == 0
    ensures chunkSize < 0 ==> r == Ok([])
    ensures chunkSize > 0 ==> r.Ok? && |r.value| == CeilDiv(|inputList|, chunkSize)
    ensures r.Ok? ==> Flatten(r.value) == (if chunkSize > 0 then inputList else [])
    ensures r.Ok? ==> forall j :: 0 <= j < |r.value| - 1 ==> |r.value[j]| == chunkSize
    ensures r.Ok? && r.value != [] ==> 1 <= |r.value[|r.value| - 1]| <= chunkSize
    ensures inputList == [] && r.Ok? ==> r.value == []
  {
    if chunkSize == 0 then Err(ValueError("range() arg 3 must not be zero"))
    else if chunkSize < 0 then Ok([])
    else
      SlicesFromShape(inputList, chunkSize, 0);
      assert inputList[0..] == inputList;
      Ok(SlicesFrom(inputList, chunkSize, 0))
  }

  /** The j-th slice starts at offset j*k: it is `s[j*k : j*k+k]`. */
  lemma {:induction false} SliceAt<T>(s: seq<T>, k: nat, i: nat, j: nat)
    requires k > 0 && i <= |s| && j < |SlicesFrom(s, k, i)|
    ensures i + j * k < |s|
    ensures SlicesFrom(s, k, i)[j] == s[i + j * k..Min(i + j * k + k, |s|)]
    decreases j
  {
    var r := SlicesFrom(s, k, i);
    var next := Min(i + k, |s|);
    assert r == [s[i..next]] + SlicesFrom(s, k, next);
    if j == 0 {
      assert i + j * k == i;
    } else {
      var rest := SlicesFrom(s, k, next);
      assert r[j] == rest[j - 1];
      SliceAt(s, k, next, j - 1);
      assert next == i + k;
      MulSucc(j, k);
      assert i + j * k == next + (j - 1) * k;
    }
  }

  lemma MulSucc(j: int, k: int)
    ensures j * k == (j - 1) * k + k
  {
  }

  // ---------------------------------------------------------------------------
  // download (onprem/utils.py:10-28)

  const MiB: nat := 1024 * 1024
  const BarWidth: nat := 50
  const FilledCell: char := '\U{2588}'

  /** What the server answers: the body and the parsed content-length header. */
  datatype Response = Response(body: seq<byte>, contentLength: Option<nat>)

  /** `max(int(total / 1000), 1024 * 1024)`: a thousandth of the file, never below 1 MiB. */
  function ChunkSize(total: nat): (r: nat)
    ensures r >= MiB && r >= total / 1000
    ensures r == MiB || r == total / 1000
  {
    Max(total / 1000, MiB)
  }

  /** `int(50 * downloaded / total)`: the number of filled cells. At most the
      whole bar while no more than `total` bytes have arrived, all of it once
      exactly `total` have. */
  function Done(downloaded: nat, total: nat): (r: nat)
    requires total > 0
    ensures downloaded <= total ==> r <= BarWidth
    ensures downloaded == total ==> r == BarWidth
  {
    DivBound(BarWidth * downloaded, total, downloaded);
    (BarWidth * downloaded) / total
  }

  /** The quotient bound behind `Done`'s contract. */
  lemma DivBound(n: nat, total: nat, downloaded: nat)
    requires total > 0 && n == BarWidth * downloaded
    ensures downloaded <= total ==> n / total <= BarWidth
    ensures downloaded == total ==> n / total == BarWidth
  {
    if downloaded <= total {
      MulMonotone(downloaded, total, BarWidth);
    }
  }

  lemma DoneMonotone(d1: nat, d2: nat, total: nat)
    requires 0 < total && d1 <= d2
    ensures Done(d1, total) <= Done(d2, total)
  {
    var q1, q2 := Done(d1, total), Done(d2, total);
    MulMonotone(d1, d2, BarWidth);
    assert q1 * total <= BarWidth * d1;
    assert BarWidth * d2 < q2 * total + total;
    if q1 > q2 {
      assert (q2 + 1) * total == q2 * total + total;
      MulMonotone(q2 + 1, q1, total);
    }
  }

  /** The fifty-cell progress bar: `"█" * done + "." * (50 - done)`; Python's
      string repetition by a negative count is empty. */
  function Bar(done: nat): (r: string)
    ensures |r| == Max(done, BarWidth)
    ensures forall i :: 0 <= i < |r| ==> r[i] == if i < done then FilledCell else '.'
  {
    seq(done, _ => FilledCell) + seq(if done < BarWidth then BarWidth - done else 0, _ => '.')
  }

  /** The `for` loop of `download`: every chunk is counted and written to the
      file, then the bar is redrawn. `written` is what reached the file. With a
      content-length of 0 the first division raises after the first write. */
  method StreamChunks(chunks: seq<seq<byte>>, total: nat)
    returns (written: seq<byte>, downloaded: nat, bars: seq<string>, error: Option<Error>)
    ensures error.Some? <==> total == 0 && chunks != []
    ensures error.None? ==> written == Flatten(chunks) && downloaded == TotalLength(chunks)
    ensures error.None? ==> |bars| == |chunks|
    ensures error.None? ==> forall i :: 0 <= i < |bars| ==>
      bars[i] == Bar(Done(TotalLength(chunks[..i + 1]), total))
    ensures error.Some? ==> written == chunks[0] && downloaded == |chunks[0]| && bars == []
    ensures error.Some? ==> error.value == ZeroDivisionError("division by zero")
  {
    written, downloaded, bars, error := [], 0, [], None;
    var i := 0;
    while i < |chunks|
      invariant 0 <= i <= |chunks|
      invariant written == Flatten(chunks[..i]) && downloaded == TotalLength(chunks[..i])
      invariant |bars| == i
      invariant total == 0 ==> i == 0
      invariant forall j :: 0 <= j < i ==> bars[j] == Bar(Done(TotalLength(chunks[..j + 1]), total))
    {
      var data := chunks[i];
      assert chunks[..i + 1] == chunks[..i] + [data];
      FlattenSnoc(chunks[..i], data);
      TotalLengthSnoc(chunks[..i], data);
      downloaded := downloaded + |data|;
      written := written + data;
      if total == 0 {
        assert chunks[..1] == [chunks[0]];
        error := Some(ZeroDivisionError("division by zero"));
        return;
      }
      var done := Done(downloaded, total);
      bars := bars + [Bar(done)];
      i := i + 1;
    }
    assert chunks[..i] == chunks;
  }

  /** The chunks `iter_content(chunk_size=size)` yields, idealised: together
      they are the body, and all have `size` bytes except a shorter last one. */
  function IterContent(body: seq<byte>, size: nat): (r: seq<seq<byte>>)
    requires size > 0
    ensures Flatten(r) == body && |r| == CeilDiv(|body|, size)
    ensures forall j :: 0 <= j < |r| - 1 ==> |r[j]| == size
    ensures r != [] ==> 1 <= |r[|r| - 1]| <= size
    ensures r != [] ==> r[0] == body[..Min(size, |body|)]
  {
    SlicesFromShape(body, size, 0);
    assert body[0..] == body;
    SlicesFrom(body, size, 0)
  }

  /** What `download(url, filename)` does to the files, given the server's
      `response`: without a content-length the whole body is written at once and
      no bar is drawn; otherwise it is streamed in chunks of `ChunkSize(total)`,
      one bar per chunk, and a content-length of 0 leaves only the first chunk. */
  ghost predicate DownloadEffect(before: map<string, seq<byte>>, after: map<string, seq<byte>>,
                                 filename: string, response: Response,
                                 bars: seq<string>, error: Option<Error>)
  {
    match response.contentLength
    case None =>
      after == before[filename := response.body] && bars == [] && error.None?
    case Some(total) =>
      var size := ChunkSize(total);
      var chunks := IterContent(response.body, size);
      && (error.Some? <==> total == 0 && response.body != [])
      && (error.None? ==> after == before[filename := response.body])
      && (error.None? ==> |bars| == |chunks| == CeilDiv(|response.body|, size))
      && (error.None? ==> forall i :: 0 <= i < |bars| ==>
            bars[i] == Bar(Done(TotalLength(chunks[..i + 1]), total)))
      && (error.Some? ==>
            && after == before[filename := response.body[..Min(size, |response.body|)]]
            && bars == []
            && error.value == ZeroDivisionError("division by zero"))
  }

  /** `download(url, filename)`, the server's answer to `url` being `response`. */
  method Download(disk: Disk, filename: string, response: Response)
    returns (bars: seq<string>, error: Option<Error>)
    modifies disk`files
    ensures DownloadEffect(old(disk.files), disk.files, filename, response, bars, error)
  {
    match response.contentLength {
      case None =>
        disk.WriteFile(filename, response.body);
        bars, error := [], None;
      case Some(total) =>
        var chunks := IterContent(response.body, ChunkSize(total));
        var written, downloaded;
        written, downloaded, bars, error := StreamChunks(chunks, total);
        disk.WriteFile(filename, written);
    }
  }

  /** Along any stream, the number of filled cells never decreases, and while no
      more than `total` bytes have arrived every bar is exactly 50 cells wide. */
  lemma {:induction false} StreamProgress(chunks: seq<seq<byte>>, total: nat, i: nat, j: nat)
    requires 0 < total && i <= j < |chunks|
    ensures Done(TotalLength(chunks[..i + 1]), total) <= Done(TotalLength(chunks[..j + 1]), total)
    ensures TotalLength(chunks) <= total ==>
      Done(TotalLength(chunks[..j + 1]), total) <= BarWidth
      && |Bar(Done(TotalLength(chunks[..j + 1]), total))| == BarWidth
  {
    TotalLengthPrefix(chunks, i + 1, j + 1);
    DoneMonotone(TotalLength(chunks[..i + 1]), TotalLength(chunks[..j + 1]), total);
    TotalLengthPrefix(chunks, j + 1, |chunks|);
    assert chunks[..|chunks|] == chunks;
  }

  /** When the server reports the true length of a non-empty body, nothing is
      raised, the whole body reaches the file, and the last bar drawn is
      completely filled. */
  lemma CompleteDownloadEndsFull(before: map<string, seq<byte>>, after: map<string, seq<byte>>,
                                 filename: string, body: seq<byte>,
                                 bars: seq<string>, error: Option<Error>)
    requires |body| > 0
    requires DownloadEffect(before, after, filename, Response(body, Some(|body|)), bars, error)
    ensures error.None? && after == before[filename := body]
    ensures |bars| > 0 && bars[|bars| - 1] == seq(BarWidth, _ => FilledCell)
  {
    var size := ChunkSize(|body|);
    var chunks := IterContent(body, size);
    assert |chunks| > 0;
    assert chunks[..|chunks|] == chunks;
    LengthOfFlatten(chunks);
    var last := bars[|bars| - 1];
    assert last == Bar(Done(TotalLength(chunks[..|chunks|]), |body|));
    assert last == seq(BarWidth, _ => FilledCell);
  }

  // ---------------------------------------------------------------------------
  // get_datadir (onprem/utils.py:31-36)

  /** `os.path.join(home, "onprem_data")` */
  function DefaultDatadir(home: string): (r: string)
    ensures Basename(r) == "onprem_data"
    ensures home <= r
  {
    JoinFileName(home, "onprem_data");
    Join(home, "onprem_data")
  }

  /** `get_datadir()`: create the data directory when it is missing and return
      it. A second call finds it and changes nothing. */
  method GetDatadir(disk: Disk, home: string) returns (datadir: string)
    modifies disk`dirs
    ensures datadir == DefaultDatadir(home)
    ensures disk.dirs == old(disk.dirs) + {datadir}
  {
    datadir := Join(home, "onprem_data");
    if !disk.IsDir(datadir) {
      disk.Mkdir(datadir);
    }
  }
}
