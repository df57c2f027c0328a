/**
 * The parcelable that carries a directory listing in a reply: a list of entries is stored as
 * five parallel arrays (names, links, modified dates, sizes, types) and turned back into beans
 * on the receiving side.
 */
module FtpFiles {
  import opened Wrappers
  import opened FtpFile

  /** The five parallel columns, as values. */
  datatype Columns = Columns(
    names: seq<Option<string>>,
    links: seq<Option<string>>,
    modifiedDates: seq<Int64>,
    sizes: seq<Int64>,
    types: seq<Int32>)
  {
    predicate WellFormed() {
      |links| == |names| && |modifiedDates| == |names| && |sizes| == |names| && |types| == |names|
    }

    function Count(): nat { |names| }
  }

  /** Every entry has a modified date (the array constructor dereferences each one). */
  predicate AllDated(files: seq<FileInfo>) {
    forall i :: 0 <= i < |files| ==> files[i].modifiedDate.Some?
  }

  /** The columns the array constructor builds from a listing. */
  function ToColumns(files: seq<FileInfo>): (c: Columns)
    requires AllDated(files)
    ensures c.WellFormed() && c.Count() == |files|
  {
    Columns(
      seq(|files|, i requires 0 <= i < |files| => files[i].name),
      seq(|files|, i requires 0 <= i < |files| => files[i].link),
      seq(|files|, i requires 0 <= i < |files| => files[i].modifiedDate.value),
      seq(|files|, i requires 0 <= i < |files| => files[i].size),
      seq(|files|, i requires 0 <= i < |files| => files[i].fileType))
  }

  /** The entries `getFiles` rebuilds from the columns; every rebuilt entry has a date. */
  function FromColumns(c: Columns): (files: seq<FileInfo>)
    requires c.WellFormed()
    ensures |files| == c.Count() && AllDated(files)
  {
    seq(c.Count(), i requires 0 <= i < c.Count() =>
      FileInfo(c.names[i], c.links[i], Some(c.modifiedDates[i]), c.sizes[i], c.types[i]))
  }

  /** Rebuilding the beans from the columns gives back the original listing, field by field. */
  lemma ListRoundTrip(files: seq<FileInfo>)
    requires AllDated(files)
    ensures FromColumns(ToColumns(files)) == files
  {
  }

  /** Storing rebuilt entries gives back the same columns. */
  lemma ColumnsRoundTrip(c: Columns)
    requires c.WellFormed()
    ensures ToColumns(FromColumns(c)) == c
  {
  }

  /** One array as a parcel stores it: its element type, its length and its elements. */
  datatype ParcelEntry =
    | StringArray(strings: seq<Option<string>>)
    | LongArray(longs: seq<Int64>)
    | IntArray(ints: seq<Int32>)

  /** The parcel constructor reads into arrays preallocated with this length. */
  const PREALLOCATED := 3

  /** What `writeToParcel` appends, in order: names, links, dates, sizes, types. */
  function Encode(c: Columns): seq<ParcelEntry> {
    [StringArray(c.names), StringArray(c.links), LongArray(c.modifiedDates), LongArray(c.sizes), IntArray(c.types)]
  }

  predicate FitsStrings(p: seq<ParcelEntry>, k: nat) {
    k < |p| && p[k].StringArray? && |p[k].strings| == PREALLOCATED
  }

  predicate FitsLongs(p: seq<ParcelEntry>, k: nat) {
    k < |p| && p[k].LongArray? && |p[k].longs| == PREALLOCATED
  }

  predicate FitsInts(p: seq<ParcelEntry>, k: nat) {
    k < |p| && p[k].IntArray? && |p[k].ints| == PREALLOCATED
  }

  /**
   * The columns the parcel constructor reads from the start of a parcel, or None when it throws:
   * reading an array into a preallocated one fails unless the stored length equals that length.
   */
  function Decode(p: seq<ParcelEntry>): (r: Option<Columns>)
    ensures r.Some? ==> r.value.WellFormed() && r.value.Count() == PREALLOCATED
    ensures r.Some? <==> FitsStrings(p, 0) && FitsStrings(p, 1) && FitsLongs(p, 2) && FitsLongs(p, 3) && FitsInts(p, 4)
  {
    if FitsStrings(p, 0) && FitsStrings(p, 1) && FitsLongs(p, 2) && FitsLongs(p, 3) && FitsInts(p, 4) then
      Some(Columns(p[0].strings, p[1].strings, p[2].longs, p[3].longs, p[4].ints))
    else
      None
  }

  /** The parcel round trip restores the columns exactly when there are three entries. */
  lemma ParcelRoundTrip(c: Columns, rest: seq<ParcelEntry>)
    requires c.WellFormed()
    ensures Decode(Encode(c) + rest) == if c.Count() == PREALLOCATED then Some(c) else None
  {
  }

  class FTPFiles {
    const names: array<Option<string>>
    const links: array<Option<string>>
    const modifiedDates: array<Int64>
    const sizes: array<Int64>
    const types: array<Int32>

    /** The five arrays are parallel. */
    predicate Valid() {
      links.Length == names.Length && modifiedDates.Length == names.Length &&
      sizes.Length == names.Length && types.Length == names.Length
    }

    function Repr(): set<object> {
      {names as object, links as object, modifiedDates as object, sizes as object, types as object}
    }

    /** The arrays' contents. */
    function Contents(): (c: Columns)
      reads Repr()
      requires Valid()
      ensures c.WellFormed() && c.Count() == names.Length
    {
      Columns(names[..], links[..], modifiedDates[..], sizes[..], types[..])
    }

    /** Builds the five arrays from a listing, each of the listing's length, index by index. */
    constructor FromFiles(files: seq<FileInfo>)
      requires AllDated(files)
      ensures Valid() && fresh(Repr())
      ensures names.Length == |files|
      ensures forall i :: 0 <= i < |files| ==>
        names[i] == files[i].name && links[i] == files[i].link &&
        modifiedDates[i] == files[i].modifiedDate.value &&
        sizes[i] == files[i].size && types[i] == files[i].fileType
      ensures Contents() == ToColumns(files)
    {
      var length := |files|;
      names := new Option<string>[length];
      links := new Option<string>[length];
      modifiedDates := new Int64[length];
      sizes := new Int64[length];
      types := new Int32[length];
      new;
      var i := 0;
      while i < length
        invariant 0 <= i <= length
        invariant forall j :: 0 <= j < i ==>
          names[j] == files[j].name && links[j] == files[j].link &&
          modifiedDates[j] == files[j].modifiedDate.value &&
          sizes[j] == files[j].size && types[j] == files[j].fileType
      {
        names[i] := files[i].name;
        links[i] := files[i].link;
        modifiedDates[i] := files[i].modifiedDate.value;
        sizes[i] := files[i].size;
        types[i] := files[i].fileType;
        i := i + 1;
      }
    }

    /** Takes over arrays the parcel reader has filled. */
    constructor FromArrays(names: array<Option<string>>, links: array<Option<string>>,
                           modifiedDates: array<Int64>, sizes: array<Int64>, types: array<Int32>)
      ensures this.names == names && this.links == links && this.modifiedDates == modifiedDates
      ensures this.sizes == sizes && this.types == types
    {
      this.names, this.links, this.modifiedDates, this.sizes, this.types := names, links, modifiedDates, sizes, types;
    }

    /** A fresh bean per index, carrying that index's five values (the date as a new Date). */
    method GetFiles() returns (files: array<FTPFile?>)
      requires Valid()
      ensures fresh(files) && files.Length == names.Length
      ensures forall i :: 0 <= i < files.Length ==> files[i] != null && fresh(files[i])
      ensures forall i :: 0 <= i < files.Length ==>
        files[i].View() == FileInfo(names[i], links[i], Some(modifiedDates[i]), sizes[i], types[i])
      ensures forall i :: 0 <= i < files.Length ==> files[i].View() == FromColumns(Contents())[i]
      ensures forall i, j :: 0 <= i < j < files.Length ==> files[i] != files[j]
    {
      var length := names.Length;
      files := new FTPFile?[length];
      var i := 0;
      while i < length
        invariant 0 <= i <= length
        invariant forall j :: 0 <= j < i ==> files[j] != null && fresh(files[j])
        invariant forall j :: 0 <= j < i ==>
          files[j].View() == FileInfo(names[j], links[j], Some(modifiedDates[j]), sizes[j], types[j])
        invariant forall j, k :: 0 <= j < k < i ==> files[j] != files[k]
      {
        files[i] := NewBean(FileInfo(names[i], links[i], Some(modifiedDates[i]), sizes[i], types[i]));
        i := i + 1;
      }
    }

    /** Appends the five arrays to the parcel in the order the parcel constructor reads them. */
    method WriteToParcel(dest: seq<ParcelEntry>) returns (parcel: seq<ParcelEntry>)
      requires Valid()
      ensures parcel == dest + Encode(Contents())
    {
      parcel := dest + [StringArray(names[..])];
      parcel := parcel + [StringArray(links[..])];
      parcel := parcel + [LongArray(modifiedDates[..])];
      parcel := parcel + [LongArray(sizes[..])];
      parcel := parcel + [IntArray(types[..])];
    }
  }

  /** A new bean filled in through its setters. */
  method NewBean(info: FileInfo) returns (file: FTPFile)
    ensures fresh(file) && file.View() == info
  {
    file := new FTPFile();
    file.SetName(info.name);
    file.SetLink(info.link);
    file.SetModifiedDate(info.modifiedDate);
    file.SetSize(info.size);
    file.SetType(info.fileType);
  }

  /** Reads a stored string array into `val`; fails (throws) unless the stored length is `val`'s. */
  method ReadStringArray(p: seq<ParcelEntry>, k: nat, val: array<Option<string>>) returns (ok: bool)
    modifies val
    ensures ok == (k < |p| && p[k].StringArray? && |p[k].strings| == val.Length)
    ensures ok ==> val[..] == p[k].strings
    ensures !ok ==> val[..] == old(val[..])
  {
    ok := k < |p| && p[k].StringArray? && |p[k].strings| == val.Length;
    if ok {
      forall i | 0 <= i < val.Length {
        val[i] := p[k].strings[i];
      }
    }
  }

  method ReadLongArray(p: seq<ParcelEntry>, k: nat, val: array<Int64>) returns (ok: bool)
    modifies val
    ensures ok == (k < |p| && p[k].LongArray? && |p[k].longs| == val.Length)
    ensures ok ==> val[..] == p[k].longs
    ensures !ok ==> val[..] == old(val[..])
  {
    ok := k < |p| && p[k].LongArray? && |p[k].longs| == val.Length;
    if ok {
      forall i | 0 <= i < val.Length {
        val[i] := p[k].longs[i];
      }
    }
  }

  method ReadIntArray(p: seq<ParcelEntry>, k: nat, val: array<Int32>) returns (ok: bool)
    modifies val
    ensures ok == (k < |p| && p[k].IntArray? && |p[k].ints| == val.Length)
    ensures ok ==> val[..] == p[k].ints
    ensures !ok ==> val[..] == old(val[..])
  {
    ok := k < |p| && p[k].IntArray? && |p[k].ints| == val.Length;
    if ok {
      forall i | 0 <= i < val.Length {
        val[i] := p[k].ints[i];
      }
    }
  }

  /**
   * The parcel constructor: preallocates five arrays of length three and reads the parcel into
   * them in order; None stands for the exception a length mismatch raises.
   */
  method CreateFromParcel(source: seq<ParcelEntry>) returns (r: Option<FTPFiles>)
    ensures r.Some? <==> Decode(source).Some?
    ensures r.Some? ==> r.value.Valid() && fresh(r.value.Repr()) && r.value.names.Length == PREALLOCATED
    ensures r.Some? ==> Some(r.value.Contents()) == Decode(source)
  {
    var names := new Option<string>[PREALLOCATED];
    var links := new Option<string>[PREALLOCATED];
    var modifiedDates := new Int64[PREALLOCATED];
    var sizes := new Int64[PREALLOCATED];
    var types := new Int32[PREALLOCATED];
    var ok := ReadStringArray(source, 0, names);
    if !ok { return None; }
    ok := ReadStringArray(source, 1, links);
    if !ok { return None; }
    ok := ReadLongArray(source, 2, modifiedDates);
    if !ok { return None; }
    ok := ReadLongArray(source, 3, sizes);
    if !ok { return None; }
    ok := ReadIntArray(source, 4, types);
    if !ok { return None; }
    var files := new FTPFiles.FromArrays(names, links, modifiedDates, sizes, types);
    r := Some(files);
  }

  /** A listing sent through the parcelable object itself comes back unchanged. */
  method ThroughObject(files: seq<FileInfo>) returns (result: seq<FileInfo>)
    requires AllDated(files)
    ensures result == files
  {
    var parcelable := new FTPFiles.FromFiles(files);
    var beans := parcelable.GetFiles();
    result := Snapshot(beans);
    assert result == FromColumns(parcelable.Contents());
    ListRoundTrip(files);
  }

  /**
   * A listing written to a fresh parcel and read back comes back unchanged when it has exactly
   * three entries; any other length makes the parcel constructor throw.
   */
  method ThroughParcel(files: seq<FileInfo>) returns (result: Option<seq<FileInfo>>)
    requires AllDated(files)
    ensures result == if |files| == PREALLOCATED then Some(files) else None
  {
    var parcelable := new FTPFiles.FromFiles(files);
    var parcel := parcelable.WriteToParcel([]);
    ParcelRoundTrip(ToColumns(files), []);
    assert parcel == Encode(ToColumns(files)) + [];
    var created := CreateFromParcel(parcel);
    if created.None? {
      return None;
    }
    var beans := created.value.GetFiles();
    var views := Snapshot(beans);
    assert created.value.Contents() == ToColumns(files);
    assert views == FromColumns(created.value.Contents());
    ListRoundTrip(files);
    result := Some(views);
  }
}
