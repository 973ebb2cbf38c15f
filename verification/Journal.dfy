/** Reading the whole journal directory back. */
module Journal {
  import opened World
  import opened Durable

  /** One file of the directory: the resource it names, and its record. */
  datatype Entry = Entry(resource: nat, record: Record)

  datatype ReadResult = Read(entries: seq<Entry>) | CorruptRecord | TwoRecords

  /** An `Applied` record without an overlay is not accepted. */
  predicate ValidRecord(r: Record) { r.phase.Applied? ==> r.applied.Some? }

  /** Every record is valid, and no two name one resource. */
  predicate Readable(directory: seq<Entry>) {
    && (forall i :: 0 <= i < |directory| ==> ValidRecord(directory[i].record))
    && forall i, j :: 0 <= i < j < |directory| ==> directory[i].resource != directory[j].resource
  }

  /** Reads every file in the order of the directory. */
  method Records(directory: seq<Entry>) returns (r: ReadResult)
    ensures r.Read? <==> Readable(directory)
    ensures r.Read? ==> r.entries == directory
    ensures r.CorruptRecord? ==> exists i :: 0 <= i < |directory| && !ValidRecord(directory[i].record)
    ensures r.TwoRecords? ==> exists i, j :: 0 <= i < j < |directory| && directory[i].resource == directory[j].resource
  {
    var out: seq<Entry> := [];
    for k := 0 to |directory|
      invariant out == directory[..k]
      invariant forall i :: 0 <= i < k ==> ValidRecord(directory[i].record)
      invariant forall i, j :: 0 <= i < j < k ==> directory[i].resource != directory[j].resource
    {
      var entry := directory[k];
      if !ValidRecord(entry.record) {
        return CorruptRecord;
      }
      if exists i :: 0 <= i < |out| && out[i].resource == entry.resource {
        return TwoRecords;
      }
      out := out + [entry];
    }
    r := Read(out);
  }

  /** The directory holds the journal files of the resources, each once. */
  ghost predicate Lists(directory: seq<Entry>, files: seq<Files>) {
    && (forall i :: 0 <= i < |directory| ==>
          var e := directory[i];
          e.resource < |files| && e.record.lease in files[e.resource] && files[e.resource][e.record.lease] == e.record)
    && (forall i, j :: 0 <= i < j < |directory| ==> directory[i] != directory[j])
  }

  /** In every reachable state the journal can be read, whoever wrote it. */
  lemma ReachableIsReadable(directory: seq<Entry>, natives: seq<Native>, files: seq<Files>)
    requires |natives| == |files| && forall x :: 0 <= x < |files| ==> DurableOk(natives[x], files[x])
    requires Lists(directory, files)
    ensures Readable(directory)
  {
    forall i | 0 <= i < |directory| ensures ValidRecord(directory[i].record) {
      assert DurableOk(natives[directory[i].resource], files[directory[i].resource]);
    }
    forall i, j | 0 <= i < j < |directory| ensures directory[i].resource != directory[j].resource {
      assert DurableOk(natives[directory[i].resource], files[directory[i].resource]);
    }
  }
}
