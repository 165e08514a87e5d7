/** src/providers/uploader.tsx: the client-side list of uploads, one item per
    file name, and the statuses the upload stream drives it through. */
module Uploader {
  import opened Common

  datatype File = File(name: string, bytes: seq<byte>)

  /** `UploadItem`'s status. */
  datatype Status = Uploading | Processing(message: Option<string>) | Done | Failed(error: string) | Waiting

  datatype UploadItem = UploadItem(file: File, status: Status)

  /** `findByFile`: the index of the first item with the file's name, or -1. */
  function FindByFile(items: seq<UploadItem>, file: File): (r: int)
    ensures -1 <= r < |items|
    ensures r == -1 <==> forall i :: 0 <= i < |items| ==> items[i].file.name != file.name
    ensures r >= 0 ==> items[r].file.name == file.name && forall i :: 0 <= i < r ==> items[i].file.name != file.name
  {
    if |items| == 0 then -1
    else if items[0].file.name == file.name then 0
    else
      var r := FindByFile(items[1..], file);
      assert forall i :: 1 <= i < |items| ==> items[i] == items[1..][i - 1];
      if r == -1 then -1 else r + 1
  }

  /** The updater `upsertItem` hands to `setItemList`: a copy of the list
      with the item appended when its file name is new, otherwise in place of
      the first item of that name. */
  function Upserted(items: seq<UploadItem>, item: UploadItem): (r: seq<UploadItem>)
  {
    var index := FindByFile(items, item.file);
    if index == -1 then items + [item]
    else items[..index] + [item] + items[index + 1..]
  }

  /** A new name is appended: the list grows by one, the old items stay. */
  lemma UpsertAbsent(items: seq<UploadItem>, item: UploadItem)
    requires forall i :: 0 <= i < |items| ==> items[i].file.name != item.file.name
    ensures |Upserted(items, item)| == |items| + 1
    ensures Upserted(items, item)[..|items|] == items && Upserted(items, item)[|items|] == item
  {
  }

  /** A present name is replaced where it stands: length and every other
      position are unchanged. */
  lemma UpsertPresent(items: seq<UploadItem>, item: UploadItem, k: nat)
    requires k < |items| && items[k].file.name == item.file.name
    ensures var r := Upserted(items, item);
            var index := FindByFile(items, item.file);
            && 0 <= index <= k
            && |r| == |items| && r[index] == item
            && (forall i :: 0 <= i < |items| && i != index ==> r[i] == items[i])
  {
    var index := FindByFile(items, item.file);
    var r := Upserted(items, item);
    assert index != -1;
    forall i | 0 <= i < |items| && i != index
      ensures r[i] == items[i]
    {
      if i < index {
        assert r[i] == items[..index][i];
      } else {
        assert r[i] == items[index + 1..][i - index - 1];
      }
    }
  }

  predicate DistinctNames(items: seq<UploadItem>)
  {
    forall i, j :: 0 <= i < j < |items| ==> items[i].file.name != items[j].file.name
  }

  /** Upserting keeps file names pairwise distinct. */
  lemma UpsertKeepsDistinct(items: seq<UploadItem>, item: UploadItem)
    requires DistinctNames(items)
    ensures DistinctNames(Upserted(items, item))
  {
    var index := FindByFile(items, item.file);
    if index == -1 {
      AppendDistinct(items, item);
    } else {
      var r := Upserted(items, item);
      UpsertPresent(items, item, index);
      assert forall i :: 0 <= i < |r| ==> r[i].file.name == items[i].file.name;
      RenamedDistinct(items, r);
    }
  }

  lemma AppendDistinct(items: seq<UploadItem>, item: UploadItem)
    requires DistinctNames(items)
    requires forall i :: 0 <= i < |items| ==> items[i].file.name != item.file.name
    ensures DistinctNames(items + [item])
  {
    var r := items + [item];
    assert forall i :: 0 <= i < |items| ==> r[i] == items[i];
  }

  lemma RenamedDistinct(items: seq<UploadItem>, r: seq<UploadItem>)
    requires DistinctNames(items) && |r| == |items|
    requires forall i :: 0 <= i < |r| ==> r[i].file.name == items[i].file.name
    ensures DistinctNames(r)
  {
  }

  /** The first item of a name keeps its index when only items at or after
      it change, as long as the item there keeps the name. */
  lemma FindSamePrefix(items: seq<UploadItem>, other: seq<UploadItem>, file: File, index: nat)
    requires index < |items| && index < |other|
    requires FindByFile(items, file) == index
    requires items[..index] == other[..index] && other[index].file.name == file.name
    ensures FindByFile(other, file) == index
  {
    assert forall i :: 0 <= i < index ==> other[i] == items[..index][i];
  }

  /** Upserting twice under one name leaves what the second upsert alone
      would leave. */
  lemma UpsertSameName(items: seq<UploadItem>, a: UploadItem, b: UploadItem)
    requires a.file.name == b.file.name
    ensures Upserted(Upserted(items, a), b) == Upserted(items, b)
  {
    if FindByFile(items, a.file) == -1 {
      UpsertSameNameAbsent(items, a, b);
    } else {
      UpsertSameNamePresent(items, a, b);
    }
  }

  lemma UpsertSameNameAbsent(items: seq<UploadItem>, a: UploadItem, b: UploadItem)
    requires a.file.name == b.file.name && FindByFile(items, a.file) == -1
    ensures Upserted(Upserted(items, a), b) == Upserted(items, b)
  {
    var once := items + [a];
    assert Upserted(items, a) == once;
    assert forall i :: 0 <= i < |items| ==> once[i] == items[i];
    assert forall i :: 0 <= i < |items| ==> once[i].file.name != b.file.name;
    assert once[|items|].file.name == b.file.name;
    assert FindByFile(once, b.file) == |items|;
    assert once[..|items|] == items;
  }

  lemma UpsertSameNamePresent(items: seq<UploadItem>, a: UploadItem, b: UploadItem)
    requires a.file.name == b.file.name && FindByFile(items, a.file) != -1
    ensures Upserted(Upserted(items, a), b) == Upserted(items, b)
  {
    var index := FindByFile(items, a.file);
    var once := items[..index] + [a] + items[index + 1..];
    assert Upserted(items, a) == once;
    Splice(items, index, a);
    FindSamePrefix(items, once, a.file, index);
    FindByName(items, a.file, b.file);
    FindByName(once, a.file, b.file);
  }

  /** `findByFile` looks at the name only. */
  lemma FindByName(items: seq<UploadItem>, f: File, g: File)
    requires f.name == g.name
    ensures FindByFile(items, f) == FindByFile(items, g)
  {
  }

  /** The pieces of a sequence with position `i` replaced. */
  lemma Splice<T>(x: seq<T>, i: nat, v: T)
    requires i < |x|
    ensures var y := x[..i] + [v] + x[i + 1..];
            |y| == |x| && y[..i] == x[..i] && y[i] == v && y[i + 1..] == x[i + 1..]
  {
    var y := x[..i] + [v] + x[i + 1..];
    assert forall k :: 0 <= k < i ==> y[k] == x[k];
    assert forall k :: i < k < |x| ==> y[k] == x[k];
  }

  // ---------------------------------------------------------------------------
  // The upload stream

  /** One `reader.read()` result. */
  datatype Read = Read(done: bool, value: Option<seq<byte>>)

  /** A chunk that parsed as a `ProcessDocumentState`: the final `data`
      event, or any other state with its optional message. */
  datatype ChunkState = DataChunk | StateChunk(message: Option<string>)

  /** The status a read sets before the done check: a `data` chunk sets
      nothing, and so does a chunk whose text is not JSON or is `null`
      (reading `type` of `null` throws); for these `parse` gives a `data`
      chunk or None. Every other JSON value has a `type` other than `"data"`
      and sets `processing` with its `message`: a number, string, boolean or
      array has none, so `parse` gives `StateChunk(None)` for it. */
  function ChunkStatus(r: Read, parse: seq<byte> -> Option<ChunkState>): (s: seq<Status>)
    ensures |s| <= 1
    ensures forall k :: 0 <= k < |s| ==> s[k].Processing?
  {
    match parse(if r.value.Some? then r.value.value else [])
    case Some(StateChunk(m)) => [Processing(m)]
    case _ => []
  }

  /** The statuses `pump` sets over the stream, up to and including the first
      done read. */
  function PumpTrace(stream: seq<Read>, parse: seq<byte> -> Option<ChunkState>): (r: seq<Status>)
  {
    if |stream| == 0 then []
    else ChunkStatus(stream[0], parse) + (if stream[0].done then [Done] else PumpTrace(stream[1..], parse))
  }

  lemma PumpStep(stream: seq<Read>, i: nat, parse: seq<byte> -> Option<ChunkState>)
    requires i < |stream|
    ensures PumpTrace(stream[i..], parse)
         == ChunkStatus(stream[i], parse) + (if stream[i].done then [Done] else PumpTrace(stream[i + 1..], parse))
  {
    assert stream[i..][0] == stream[i] && stream[i..][1..] == stream[i + 1..];
  }

  /** Every status an upload goes through: `uploading`, then the pump's. With
      no response body nothing follows. */
  function StatusTrace(body: Option<seq<Read>>, parse: seq<byte> -> Option<ChunkState>): (r: seq<Status>)
  {
    [Uploading] + (if body.Some? then PumpTrace(body.value, parse) else [])
  }

  /** Only `processing` and a final `done`. */
  predicate PumpStatuses(t: seq<Status>)
  {
    forall k :: 0 <= k < |t| ==> t[k].Processing? || (t[k].Done? && k == |t| - 1)
  }

  lemma {:induction false} PumpTraceStatuses(stream: seq<Read>, parse: seq<byte> -> Option<ChunkState>)
    ensures PumpStatuses(PumpTrace(stream, parse))
  {
    if |stream| > 0 {
      var c := ChunkStatus(stream[0], parse);
      if stream[0].done {
        assert PumpTrace(stream, parse) == c + [Done];
        assert forall k :: 0 <= k < |c| ==> (c + [Done])[k] == c[k];
      } else {
        PumpTraceStatuses(stream[1..], parse);
        var rest := PumpTrace(stream[1..], parse);
        if |c| == 0 {
          assert PumpTrace(stream, parse) == rest;
        } else {
          assert PumpTrace(stream, parse) == [c[0]] + rest;
          assert forall k :: 1 <= k < 1 + |rest| ==> ([c[0]] + rest)[k] == rest[k - 1];
        }
      }
    }
  }

  predicate HasDone(stream: seq<Read>)
  {
    exists i :: 0 <= i < |stream| && stream[i].done
  }

  lemma HasDoneTail(stream: seq<Read>)
    requires |stream| > 0 && !stream[0].done
    ensures HasDone(stream) <==> HasDone(stream[1..])
  {
    if HasDone(stream) {
      var i :| 0 <= i < |stream| && stream[i].done;
      assert stream[1..][i - 1] == stream[i];
    }
    if HasDone(stream[1..]) {
      var i :| 0 <= i < |stream| - 1 && stream[1..][i].done;
      assert stream[i + 1] == stream[1..][i];
    }
  }

  lemma {:induction false} PumpTraceDone(stream: seq<Read>, parse: seq<byte> -> Option<ChunkState>)
    ensures var t := PumpTrace(stream, parse);
            HasDone(stream) <==> |t| > 0 && t[|t| - 1] == Done
  {
    if |stream| > 0 {
      var c := ChunkStatus(stream[0], parse);
      if stream[0].done {
        assert PumpTrace(stream, parse) == c + [Done];
      } else {
        PumpTraceDone(stream[1..], parse);
        HasDoneTail(stream);
        var rest := PumpTrace(stream[1..], parse);
        assert PumpTrace(stream, parse) == c + rest;
        if |rest| == 0 {
          assert c + rest == c;
        } else {
          assert (c + rest)[|c + rest| - 1] == rest[|rest| - 1];
        }
      }
    }
  }

  /** The pump sets only `processing` and, at the first done read, `done`
      last. */
  lemma PumpTraceShape(stream: seq<Read>, parse: seq<byte> -> Option<ChunkState>)
    ensures var t := PumpTrace(stream, parse);
            && (forall k :: 0 <= k < |t| ==> t[k].Processing? || (t[k].Done? && k == |t| - 1))
            && (HasDone(stream) <==> |t| > 0 && t[|t| - 1] == Done)
  {
    PumpTraceStatuses(stream, parse);
    PumpTraceDone(stream, parse);
  }

  /** No path of the upload sets `failed` (nor `waiting`); the item starts
      `uploading` and ends `done` exactly when the stream reports done. */
  lemma StatusTraceShape(body: Option<seq<Read>>, parse: seq<byte> -> Option<ChunkState>)
    ensures var t := StatusTrace(body, parse);
            && t[0] == Uploading
            && (forall k :: 0 <= k < |t| ==> !t[k].Failed? && !t[k].Waiting?)
            && (t[|t| - 1] == Done <==> body.Some? && HasDone(body.value))
  {
    if body.Some? {
      var p := PumpTrace(body.value, parse);
      PumpTraceShape(body.value, parse);
      assert StatusTrace(body, parse) == [Uploading] + p;
      UploadingThen(p);
    } else {
      assert StatusTrace(body, parse) == [Uploading];
    }
  }

  lemma UploadingThen(p: seq<Status>)
    requires PumpStatuses(p)
    ensures var t := [Uploading] + p;
            && t[0] == Uploading
            && (forall k :: 0 <= k < |t| ==> !t[k].Failed? && !t[k].Waiting?)
            && (t[|t| - 1] == Done <==> |p| > 0 && p[|p| - 1] == Done)
  {
    var t := [Uploading] + p;
    assert forall k :: 1 <= k < |t| ==> t[k] == p[k - 1];
  }

  /** The list after upserting the file's item with each status in turn. */
  function SetStatuses(items: seq<UploadItem>, file: File, statuses: seq<Status>): (r: seq<UploadItem>)
    decreases |statuses|
  {
    if |statuses| == 0 then items
    else SetStatuses(Upserted(items, UploadItem(file, statuses[0])), file, statuses[1..])
  }

  lemma {:induction false} SetStatusesAppend(items: seq<UploadItem>, file: File, a: seq<Status>, b: seq<Status>)
    ensures SetStatuses(items, file, a + b) == SetStatuses(SetStatuses(items, file, a), file, b)
    decreases |a|
  {
    if |a| == 0 {
      assert a + b == b;
    } else {
      assert (a + b)[0] == a[0] && (a + b)[1..] == a[1..] + b;
      SetStatusesAppend(Upserted(items, UploadItem(file, a[0])), file, a[1..], b);
    }
  }

  /** Setting several statuses leaves the item once, with the last of them. */
  lemma {:induction false} SetStatusesLast(items: seq<UploadItem>, file: File, statuses: seq<Status>)
    requires |statuses| > 0
    ensures SetStatuses(items, file, statuses) == Upserted(items, UploadItem(file, statuses[|statuses| - 1]))
    decreases |statuses|
  {
    if |statuses| > 1 {
      var next := Upserted(items, UploadItem(file, statuses[0]));
      SetStatusesLast(next, file, statuses[1..]);
      UpsertSameName(items, UploadItem(file, statuses[0]), UploadItem(file, statuses[|statuses| - 1]));
    }
  }

  /** The provider: the list of upload items, updated in place. */
  class UploadProvider {
    var itemList: seq<UploadItem>

    constructor()
      ensures itemList == []
    {
      itemList := [];
    }

    /** `upsertItem`. */
    method UpsertItem(item: UploadItem)
      modifies this
      ensures itemList == Upserted(old(itemList), item)
    {
      var index := FindByFile(itemList, item.file);
      if index == -1 {
        itemList := itemList + [item];
        return;
      }
      var newItems := itemList;
      newItems := newItems[..index] + [item] + newItems[index + 1..];
      itemList := newItems;
    }

    /** One call of `pump`: the read's chunk sets `processing` if it parses
        as a non-`data` state, then a done read sets `done`. */
    method PumpRead(file: File, read: Read, parse: seq<byte> -> Option<ChunkState>)
      returns (statuses: seq<Status>)
      modifies this
      ensures statuses == ChunkStatus(read, parse) + (if read.done then [Done] else [])
      ensures itemList == SetStatuses(old(itemList), file, statuses)
    {
      statuses := [];
      var parsed := parse(if read.value.Some? then read.value.value else []);
      if parsed.Some? && parsed.value.StateChunk? {
        var status := Processing(parsed.value.message);
        UpsertItem(UploadItem(file, status));
        statuses := [status];
        assert SetStatuses(old(itemList), file, statuses) == SetStatuses(itemList, file, []);
      }
      if read.done {
        ghost var before := itemList;
        UpsertItem(UploadItem(file, Done));
        SetStatusesAppend(old(itemList), file, statuses, [Done]);
        assert SetStatuses(before, file, [Done]) == SetStatuses(itemList, file, []);
        statuses := statuses + [Done];
      }
    }

    /** `pump` and the `reader.read().then(pump)` it returns: the reads of
        the body one by one, until the first done read. `pumped` lists the
        statuses set, each an upsert of the file's item. */
    method Pump(file: File, stream: seq<Read>, parse: seq<byte> -> Option<ChunkState>)
      returns (pumped: seq<Status>)
      modifies this
      ensures pumped == PumpTrace(stream, parse)
      ensures itemList == SetStatuses(old(itemList), file, pumped)
      decreases |stream|
    {
      if |stream| == 0 {
        return [];
      }
      var statuses := PumpRead(file, stream[0], parse);
      if stream[0].done {
        return statuses;
      }
      var rest := Pump(file, stream[1..], parse);
      SetStatusesAppend(old(itemList), file, statuses, rest);
      pumped := statuses + rest;
    }

    /** `uploadFile(file)` with the response body scripted as its reads
        (`None` when the response has no body) and `parse` standing for
        UTF-8 decoding plus `JSON.parse`. `trace` lists the statuses set, in
        order; the list ends holding the file's item once, with the last of
        them. A script without a done read stops where the stream would
        wait. */
    method UploadFile(file: File, body: Option<seq<Read>>, parse: seq<byte> -> Option<ChunkState>)
      returns (trace: seq<Status>)
      modifies this
      ensures trace == StatusTrace(body, parse)
      ensures itemList == Upserted(old(itemList), UploadItem(file, trace[|trace| - 1]))
    {
      UpsertItem(UploadItem(file, Uploading));
      trace := [Uploading];
      if body.None? {
        return;
      }
      ghost var uploading := itemList;
      var pumped := Pump(file, body.value, parse);
      trace := trace + pumped;
      SetStatusesAppend(old(itemList), file, [Uploading], pumped);
      assert SetStatuses(old(itemList), file, [Uploading]) == uploading;
      SetStatusesLast(old(itemList), file, trace);
    }
  }
}
