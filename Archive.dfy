/**
 * `create_zip` of app.py: every (name, content) pair of an ordered mapping is
 * written, in order, into an in-memory zip file. The archive is modelled by
 * its list of entries; compression and the byte layout are not modelled.
 */
module Archive {

  datatype Option<T> = None | Some(value: T)

  /** One file stored in the archive. */
  datatype Entry = Entry(name: string, content: string)

  /** No two entries share a name. */
  predicate DistinctNames(files: seq<Entry>)
  {
    forall i, j :: 0 <= i < j < |files| ==> files[i].name != files[j].name
  }

  /** The zip file being written: `ZipFile.writestr` appends one entry. */
  class ZipWriter {
    var entries: seq<Entry>

    constructor ()
      ensures entries == []
    {
      entries := [];
    }

    method WriteStr(name: string, content: string)
      modifies this
      ensures entries == old(entries) + [Entry(name, content)]
    {
      entries := entries + [Entry(name, content)];
    }
  }

  /** `create_zip(files_dict)`: the archive holds the given files, in the
      mapping's iteration order, each with its content unchanged. */
  method CreateZip(files: seq<Entry>) returns (archive: seq<Entry>)
    ensures archive == files
  {
    var zf := new ZipWriter();
    var i := 0;
    while i < |files|
      invariant 0 <= i <= |files|
      invariant zf.entries == files[..i]
    {
      zf.WriteStr(files[i].name, files[i].content);
      i := i + 1;
    }
    archive := zf.entries;
  }

  /** What a zip reader returns for `name`: the content of the last entry
      stored under that name, which is the one Python's `ZipFile.read`
      finds. */
  function Read(archive: seq<Entry>, name: string): (r: Option<string>)
    ensures r.None? <==> forall k :: 0 <= k < |archive| ==> archive[k].name != name
    ensures r.Some? ==> exists k :: 0 <= k < |archive| && archive[k] == Entry(name, r.value)
                                && forall m :: k < m < |archive| ==> archive[m].name != name
  {
    if archive == [] then None
    else if archive[|archive| - 1].name == name then Some(archive[|archive| - 1].content)
    else Read(archive[..|archive| - 1], name)
  }

  /** Reading back: in an archive whose names are distinct, every stored file
      is found under its name with its content. */
  lemma {:induction false} ReadBack(files: seq<Entry>, k: nat)
    requires DistinctNames(files) && k < |files|
    ensures Read(files, files[k].name) == Some(files[k].content)
  {
    var last := |files| - 1;
    if k < last {
      assert files[k].name != files[last].name;
      assert files[..last][k] == files[k];
      ReadBack(files[..last], k);
    }
  }
}
